# Patient care system: the MCP tool layer and its domain services

A model of the tool server of the patient-care system. The server is a Spring
application that exposes its patient records to Model Context Protocol clients
(revision 2024-11-05) over JSON-RPC 2.0. The model has three layers.

- **MCPServer** finds every method annotated `@Tool` and records its
  `@ToolParam` parameters in a registry keyed by tool name. From that registry
  it publishes one JSON Schema per tool through `listTools`. `callTool` binds
  the untyped JSON arguments to the method's parameters and invokes the method.
- **MCPController** routes `initialize`, `tools/list` and `tools/call`. It
  wraps every answer in a JSON-RPC response envelope and maps a thrown
  exception to error -32603.
- **MCPToolService** declares the eleven tools. The tools run over
  **PatientService** and **AppointmentService**. Both services work on one
  database of patients, care plans, progress notes and appointments.

How each layer is modelled:

- A value-level computation is a function with lemmas. This covers:
  - the schema;
  - `getJsonType` and `convertValue`;
  - Java's `parseLong`, `parseInt` and `parseBoolean`;
  - the tool bodies;
  - the request dispatch.
- Code that changes state step by step is a class whose methods are proved
  equal to those functions. This covers:
  - the lazily built registry field of `MCPServer`;
  - the scanning and schema-building loops;
  - the services' updates to the repositories.
- Reflection becomes an explicit declaration table. `Method.invoke` becomes a
  dispatch on a `MethodRef` that names the eleven tool methods.
- The repositories become one `Database` object that holds a map per table.
  Both services share it.
- Raw JSON becomes the `Value` datatype. It mirrors what Jackson gives the
  controller: String, Integer, Long or BigInteger by magnitude, Double,
  Boolean, lists, and maps as entry sequences.

These collaborators are not visible to the model and are passed in as
parameters, through the `Env` datatype:

- the JSON text Jackson writes for a result;
- the messages of the JDK's and Spring's exceptions;
- the clock (`LocalDate.now`, `LocalDateTime.now`, `plusMonths(3)`);
- ISO-8601 date parsing;
- `Double.parseDouble`.

The source files are under `src/main/java/com/healthcare/patientcare/`.

Behaviour a client may not expect:

- A `tools/call` that names an unknown tool is not a JSON-RPC error. `callTool`
  returns `{"error": "Tool not found: <name>"}` as text (MCPServer.java:111-113),
  and that text is wrapped in a successful `result` (MCPController.java:86-97).
- A `method` member that is present but not a string is a different case. Its
  `ClassCastException` is raised by the cast at MCPController.java:19, which
  is outside the `try`. So that request is answered by Spring's HTTP 500, not
  by a JSON-RPC envelope. A null or absent `method` makes the `switch` at
  MCPController.java:27 throw inside the `try`, and the catch at
  MCPController.java:48-53 turns it into -32603.
- The -32601 "Method not found" error is given only for an unknown JSON-RPC
  method (MCPController.java:42-46).

## Model

| member | source | states |
|---|---|---|
| JavaNumbers.ParseLong | src/main/java/com/healthcare/patientcare/mcp/MCPServer.java:153-155 | `Long.parseLong`: an optional sign and ASCII digits; any result lies in the 64-bit range |
| JavaNumbers.ParseInt | src/main/java/com/healthcare/patientcare/mcp/MCPServer.java:156-158 | `Integer.parseInt`: any result lies in the 32-bit range |
| JavaNumbers.ParseLongRoundTrip | src/main/java/com/healthcare/patientcare/mcp/MCPServer.java:151-154 | the decimal text of every 64-bit value parses back to that value |
| JavaNumbers.ParseIntRoundTrip | src/main/java/com/healthcare/patientcare/mcp/MCPServer.java:151-157 | the decimal text of every 32-bit value parses back to that value |
| JavaNumbers.ParseLongRejectsOverflow | src/main/java/com/healthcare/patientcare/mcp/MCPServer.java:153-154 | the decimal text of a number outside the 64-bit range is rejected |
| JavaNumbers.ParseIntRejectsOverflow | src/main/java/com/healthcare/patientcare/mcp/MCPServer.java:156-157 | the decimal text of a number outside the 32-bit range is rejected by `parseInt` |
| JavaNumbers.ParseIntAgreesWithParseLong | src/main/java/com/healthcare/patientcare/mcp/MCPServer.java:153-158 | text that `parseInt` accepts, `parseLong` accepts with the same value |
| JavaNumbers.ParseLongAccepts | src/main/java/com/healthcare/patientcare/mcp/MCPServer.java:153-154 | "7" is 7 and "+42" is 42 |
| JavaNumbers.ParseLongRejects | src/main/java/com/healthcare/patientcare/mcp/MCPServer.java:153-154 | "abc", "", "-" and "7.0" are rejected |
| JavaNumbers.ParseBooleanExamples | src/main/java/com/healthcare/patientcare/mcp/MCPServer.java:159-160 | `parseBoolean` is `equalsIgnoreCase("true")`: "true", "TRUE", "tRuE" give true; "false", "yes", "1", "" give false |
| JavaNumbers.ParseBooleanCharacterised | src/main/java/com/healthcare/patientcare/mcp/MCPServer.java:159-160 | `parseBoolean` is true of exactly the texts `t`/`T`, `r`/`R`, `u`/`U`, `e`/`E` in that order, four characters long |
| JavaNumbers.ToDecimalIsNumeral | src/main/java/com/healthcare/patientcare/mcp/MCPServer.java:151 | the `toString` text of an integer is a numeral denoting that integer |
| JavaNumbers.NegativeDecimal | src/main/java/com/healthcare/patientcare/mcp/MCPServer.java:151 | the text of a negative integer is a minus sign before digits that denote its magnitude |
| JavaNumbers.NonNegativeDecimal | src/main/java/com/healthcare/patientcare/mcp/MCPServer.java:151 | the text of a non-negative integer is digits that denote it |
| JavaNumbers.MinusNumeral | src/main/java/com/healthcare/patientcare/mcp/MCPServer.java:153-157 | a minus sign before a run of digits is accepted as the negated run |
| JavaText.NatDigitsValue | src/main/java/com/healthcare/patientcare/mcp/MCPServer.java:151 | the digits written for a natural number read back as that number |
| JsonValues.Decoded | src/main/java/com/healthcare/patientcare/mcp/controller/MCPController.java:18 | a JSON integer arrives as Integer when it fits 32 bits, as Long when it fits 64 bits only, and as BigInteger otherwise |
| JsonValues.Put | src/main/java/com/healthcare/patientcare/mcp/MCPServer.java:88 | `HashMap.put`: the key is added, maps to the new value, and every other key keeps its value |
| JsonValues.TwoEntries | src/main/java/com/healthcare/patientcare/mcp/MCPServer.java:85-87 | two `put`s of distinct keys into a fresh map give exactly those keys, each with its own value |
| JsonValues.ThreeEntries | src/main/java/com/healthcare/patientcare/mcp/MCPServer.java:74-100 | three `put`s of distinct keys into a fresh map give exactly those keys, each with its own value |
| JsonValues.PutKeepsKeysDistinct | src/main/java/com/healthcare/patientcare/mcp/MCPServer.java:88 | `put` never creates a duplicate key |
| JsonValues.DistinctCons | src/main/java/com/healthcare/patientcare/mcp/MCPServer.java:88 | a map with an entry in front has distinct keys iff the rest does and lacks that key |
| JsonValues.DistinctKeysCount | src/main/java/com/healthcare/patientcare/mcp/MCPServer.java:88 | with distinct keys, the map's size is its number of entries |
| JsonValues.ListTextExample | src/main/java/com/healthcare/patientcare/mcp/MCPServer.java:151 | `toString` of a list [1, "a"] is "[1, a]" |
| JsonValues.MapTextExample | src/main/java/com/healthcare/patientcare/mcp/MCPServer.java:151 | `toString` of a map {k: true} is "{k=true}", and of null is "null" |
| JavaExceptions.GetMessage | src/main/java/com/healthcare/patientcare/mcp/MCPServer.java:132 | `getMessage` of an application `RuntimeException` is the text it was created with |
| Registry.Describe | src/main/java/com/healthcare/patientcare/mcp/MCPServer.java:53-59 | a parameter descriptor copies the annotation's name, description and required flag, and the parameter's Java type |
| Registry.ParametersOf | src/main/java/com/healthcare/patientcare/mcp/MCPServer.java:50-61 | the annotated parameters, in declaration order; there are never more descriptors than parameters |
| Registry.ParametersOfAppend | src/main/java/com/healthcare/patientcare/mcp/MCPServer.java:51-61 | collecting parameters distributes over concatenation |
| Registry.ParametersOfAnnotated | src/main/java/com/healthcare/patientcare/mcp/MCPServer.java:51-61 | when every parameter is annotated, descriptor `i` describes parameter `i` |
| Registry.MetadataOf | src/main/java/com/healthcare/patientcare/mcp/MCPServer.java:40-48 | a tool descriptor carries the `@Tool` name and description, the method handle and the parameter descriptors |
| Registry.Register | src/main/java/com/healthcare/patientcare/mcp/MCPServer.java:39-64 | a `@Tool` method is put under its name, replacing any earlier entry; any other method changes nothing |
| Registry.RegisterAll | src/main/java/com/healthcare/patientcare/mcp/MCPServer.java:38-63 | the scan only ever adds tools: every name registered before is still registered after |
| Registry.RegisterAllKeys | src/main/java/com/healthcare/patientcare/mcp/MCPServer.java:38-63 | after scanning, the keys are the earlier keys plus the declared names, and nothing else |
| Registry.RegisterAllUntouched | src/main/java/com/healthcare/patientcare/mcp/MCPServer.java:38-63 | a name that no scanned method declares keeps its earlier entry, or stays absent |
| Registry.RegisterAllLastWins | src/main/java/com/healthcare/patientcare/mcp/MCPServer.java:63 | a name declared twice keeps its later declaration |
| Registry.RegisterAllNamesMatch | src/main/java/com/healthcare/patientcare/mcp/MCPServer.java:41-63 | every descriptor is stored under its own name |
| Registry.BuildCharacterised | src/main/java/com/healthcare/patientcare/mcp/MCPServer.java:30-66 | the registry's keys are exactly the declared tool names, each entry carries its own name, and each name maps to its last declaration |
| Registry.UnannotatedIgnored | src/main/java/com/healthcare/patientcare/mcp/MCPServer.java:39 | methods without `@Tool` leave the registry unchanged |
| Registry.RegisterAllAppend | src/main/java/com/healthcare/patientcare/mcp/MCPServer.java:34-38 | scanning bean after bean equals scanning all their methods at once |
| Registry.Build | src/main/java/com/healthcare/patientcare/mcp/MCPServer.java:30-66 | every registered descriptor is stored under its own tool name |
| Schema.GetJsonType | src/main/java/com/healthcare/patientcare/mcp/MCPServer.java:136-142 | String gives "string"; Integer/int/Long/long give "integer"; Boolean/boolean give "boolean"; Double/double/Float/float give "number"; the rule is total, and every other class gives "string" |
| Schema.ParamSchema | src/main/java/com/healthcare/patientcare/mcp/MCPServer.java:85-87 | a parameter's schema has exactly `type` (its JSON type) and `description` |
| Schema.PropertiesOf | src/main/java/com/healthcare/patientcare/mcp/MCPServer.java:81-88 | `properties` has exactly one key per parameter name |
| Schema.PropertyOfLastNamed | src/main/java/com/healthcare/patientcare/mcp/MCPServer.java:88 | a name's property is the schema of the last parameter with that name |
| Schema.InputSchema | src/main/java/com/healthcare/patientcare/mcp/MCPServer.java:78-98 | an input schema has `type` "object" and `properties`, plus `required` (the list of required names) exactly when that list is non-empty |
| Schema.ToolEntry | src/main/java/com/healthcare/patientcare/mcp/MCPServer.java:74-100 | a tool entry has exactly `name`, `description` and `inputSchema` |
| Schema.RequiredNamesEmpty | src/main/java/com/healthcare/patientcare/mcp/MCPServer.java:82-92 | the required list is empty iff no parameter is required |
| Schema.RequiredNames | src/main/java/com/healthcare/patientcare/mcp/MCPServer.java:90-92 | the required list is no longer than the parameter list, and as long as it when every parameter is required |
| Schema.RequiredKeyPresent | src/main/java/com/healthcare/patientcare/mcp/MCPServer.java:96-98 | the schema has the `required` key iff some parameter is required |
| Schema.RequiredNamesAreRequired | src/main/java/com/healthcare/patientcare/mcp/MCPServer.java:90-92 | every listed name belongs to a required parameter |
| Schema.RequiredNamesComplete | src/main/java/com/healthcare/patientcare/mcp/MCPServer.java:90-92 | every required parameter's name is in the list, also when optional parameters are mixed in |
| Schema.RequiredNamesAllRequired | src/main/java/com/healthcare/patientcare/mcp/MCPServer.java:90-92 | when all parameters are required, `required` lists all their names in parameter order |
| Schema.BuildInputSchema | src/main/java/com/healthcare/patientcare/mcp/MCPServer.java:78-98 | the parameter loop builds exactly `InputSchema` of the parameters |
| Binder.ConvertValue | src/main/java/com/healthcare/patientcare/mcp/MCPServer.java:144-167 | null stays null, and no other value becomes null; a failure is a NumberFormatException on the value's text, or a failure of `parseDouble`, and only Long, Integer and Double targets fail |
| Binder.DecodedBindsToLong | src/main/java/com/healthcare/patientcare/mcp/MCPServer.java:147-154 | a JSON integer in the 64-bit range binds to a Long parameter as that number |
| Binder.DecodedOverflowsLong | src/main/java/com/healthcare/patientcare/mcp/MCPServer.java:151-154 | a JSON integer outside that range fails with NumberFormatException on its digits |
| Binder.DecodedBindsToInt | src/main/java/com/healthcare/patientcare/mcp/MCPServer.java:147-158 | a JSON integer binds to an Integer parameter iff it fits 32 bits; otherwise NumberFormatException |
| Binder.TextBindsToLong | src/main/java/com/healthcare/patientcare/mcp/MCPServer.java:151-154 | a string binds to a Long parameter iff `parseLong` accepts it, as the parsed value; otherwise NumberFormatException on that text |
| Binder.BooleanNeverFails | src/main/java/com/healthcare/patientcare/mcp/MCPServer.java:159-160 | a non-null value binds to a Boolean parameter as `parseBoolean` of its text, and never fails |
| Binder.StringReceivesText | src/main/java/com/healthcare/patientcare/mcp/MCPServer.java:147-166 | a String parameter receives the value's text |
| Binder.FloatReceivesText | src/main/java/com/healthcare/patientcare/mcp/MCPServer.java:140-166 | a Float parameter receives the text itself, although its schema says "number" |
| Binder.BindingMatchesSchema | src/main/java/com/healthcare/patientcare/mcp/MCPServer.java:136-167 | except for Float, a bound value has the JSON kind that the schema publishes for its parameter |
| Binder.BindOne | src/main/java/com/healthcare/patientcare/mcp/MCPServer.java:118-125 | fails with "missing" iff a required argument is absent or null; otherwise the result is `convertValue` of the argument |
| Binder.Bind | src/main/java/com/healthcare/patientcare/mcp/MCPServer.java:116-126 | a bound argument list has one entry per parameter |
| Binder.BindSucceeds | src/main/java/com/healthcare/patientcare/mcp/MCPServer.java:116-126 | binding succeeds iff every parameter binds, and then entry `i` is parameter `i`'s binding |
| Binder.BindFailsAtFirst | src/main/java/com/healthcare/patientcare/mcp/MCPServer.java:117-125 | the first parameter that fails decides the outcome |
| Binder.BindPrefixFailure | src/main/java/com/healthcare/patientcare/mcp/MCPServer.java:117-125 | once a prefix fails, later parameters are not looked at |
| Binder.BindStep | src/main/java/com/healthcare/patientcare/mcp/MCPServer.java:116-126 | after parameters that all bind, one more parameter extends the list by its own binding, or fails with its failure |
| Binder.BindArguments | src/main/java/com/healthcare/patientcare/mcp/MCPServer.java:116-126 | the argument loop, with its early return, computes `Bind` |
| Repositories.EmptyIsValid | src/main/java/com/healthcare/patientcare/entity/Patient.java:18-26 | the empty database meets the table invariant |
| Repositories.StorePatientKeepsValid | src/main/java/com/healthcare/patientcare/entity/Patient.java:18-26 | storing a patient under its own id, with a patientId no other patient has, keeps the invariant |
| Repositories.StoreNoteKeepsValid | src/main/java/com/healthcare/patientcare/service/PatientService.java:75 | storing a note of a stored patient under its own id keeps the invariant |
| Repositories.StorePlanKeepsValid | src/main/java/com/healthcare/patientcare/service/PatientService.java:63 | storing a plan of a stored patient whom no other plan belongs to keeps the invariant |
| Repositories.StoreAppointmentKeepsValid | src/main/java/com/healthcare/patientcare/service/AppointmentService.java:48 | storing an appointment of a stored patient under its own id keeps the invariant |
| Repositories.RemoveAppointmentKeepsValid | src/main/java/com/healthcare/patientcare/service/AppointmentService.java:69 | deleting appointments keeps the invariant |
| Repositories.PatientSaved | src/main/java/com/healthcare/patientcare/entity/Patient.java:18-26 | `save` fails iff another patient has the same patientId (the unique column), and then stores no row and leaves the id counter as it was; a new patient gets the next IDENTITY id; a stored patient keeps its id |
| Repositories.CarePlanSaved | src/main/java/com/healthcare/patientcare/service/PatientService.java:63 | `save` stores the plan under its own id, or under the next IDENTITY id when it is new |
| Repositories.NoteSaved | src/main/java/com/healthcare/patientcare/service/PatientService.java:75 | the same, for a progress note |
| Repositories.AppointmentSaved | src/main/java/com/healthcare/patientcare/service/AppointmentService.java:48 | the same, for an appointment |
| Repositories.Lookup | src/main/java/com/healthcare/patientcare/service/PatientService.java:32-34 | `findById` finds exactly the stored ids, and returns the stored row |
| Repositories.Single | src/main/java/com/healthcare/patientcare/repository/CarePlanRepository.java:10 | a single-result derived query returns empty for no match, the matching row for one match, and raises IncorrectResultSizeDataAccessException with the count for two or more |
| Repositories.CarePlanLookupNeverFails | src/main/java/com/healthcare/patientcare/repository/CarePlanRepository.java:10 | on valid tables, `findByPatientId` for care plans never fails, since a patient has at most one plan |
| Repositories.NotesOf | src/main/java/com/healthcare/patientcare/repository/ProgressNoteRepository.java:10 | exactly the notes linked to the patient |
| Repositories.CarePlansOf | src/main/java/com/healthcare/patientcare/entity/Patient.java:37-38 | the rows of a patient's `carePlan` association are exactly the plans whose join column holds the patient's id |
| Repositories.AtMostOneCarePlan | src/main/java/com/healthcare/patientcare/entity/Patient.java:37-38 | on valid tables the one-to-one `carePlan` association holds at most one plan |
| Repositories.UnknownPatientOwnsNothing | src/main/java/com/healthcare/patientcare/entity/ProgressNote.java:30-32 | on valid tables (non-null foreign keys to stored patients), an id no patient has owns no notes, no plans and no appointments |
| Repositories.AppointmentsOf | src/main/java/com/healthcare/patientcare/service/AppointmentService.java:33-35 | exactly the appointments linked to the patient |
| Repositories.AppointmentsBetween | src/main/java/com/healthcare/patientcare/service/AppointmentService.java:37-39 | exactly the appointments whose date lies between start and end, inclusive |
| Repositories.Database.SavePatient | src/main/java/com/healthcare/patientcare/service/PatientService.java:67 | the stored tables become `PatientSaved` of the old tables |
| Repositories.Database.SaveCarePlan | src/main/java/com/healthcare/patientcare/service/PatientService.java:63 | the stored tables become `CarePlanSaved` of the old tables |
| Repositories.Database.SaveNote | src/main/java/com/healthcare/patientcare/service/PatientService.java:75 | the stored tables become `NoteSaved` of the old tables |
| Repositories.Database.SaveAppointment | src/main/java/com/healthcare/patientcare/service/AppointmentService.java:48 | the stored tables become `AppointmentSaved` of the old tables |
| Repositories.Database.DeleteAppointmentById | src/main/java/com/healthcare/patientcare/service/AppointmentService.java:69 | the appointment is removed and nothing else changes |
| Repositories.Database.FindPatientByName | src/main/java/com/healthcare/patientcare/repository/PatientRepository.java:10 | the single-result query for the patients with that name |
| Repositories.Database.FindCarePlanByPatient | src/main/java/com/healthcare/patientcare/repository/CarePlanRepository.java:10 | the single-result query for the patient's plans |
| PatientServices.UpdateCarePlanUnknownPatient | src/main/java/com/healthcare/patientcare/service/PatientService.java:49-50 | for an unknown patient, "Patient not found", and nothing changes |
| PatientServices.UpdateCarePlanShape | src/main/java/com/healthcare/patientcare/service/PatientService.java:48-64 | an existing plan is updated under its own id; without one, a new plan is inserted under the next id; either way it copies the request's six fields and the patient link |
| PatientServices.UpdateCarePlanUpserts | src/main/java/com/healthcare/patientcare/service/PatientService.java:52-63 | succeeds for a stored patient; the saved plan copies the request and is stored, keeps the patient's existing plan id, and leaves every other plan and table unchanged |
| PatientServices.UpdateCarePlanSinglePlan | src/main/java/com/healthcare/patientcare/service/PatientService.java:52-63 | afterwards the patient has exactly one plan, the saved one |
| PatientServices.UpdateCarePlanKeepsValid | src/main/java/com/healthcare/patientcare/service/PatientService.java:48-64 | the table invariant is preserved |
| PatientServices.AddedProgressNote | src/main/java/com/healthcare/patientcare/service/PatientService.java:71-72 | for an unknown patient, "Patient not found", and nothing changes |
| PatientServices.AddProgressNoteStores | src/main/java/com/healthcare/patientcare/service/PatientService.java:70-76 | the note is linked to the patient and stored, it is listed among the patient's notes, the other tables are unchanged, and the invariant holds |
| PatientServices.CreatedPatient | src/main/java/com/healthcare/patientcare/service/PatientService.java:66-68 | a failed create stores no row and leaves the tables as they were (identity gaps are left out) |
| PatientServices.CreatePatientThenFind | src/main/java/com/healthcare/patientcare/service/PatientService.java:32-68 | a created patient is found by `getPatientById` on the returned id, equals the given patient apart from its id, and the invariant holds |
| PatientServices.PatientService.GetPatientByName | src/main/java/com/healthcare/patientcare/service/PatientService.java:28-30 | the name query, changing nothing |
| PatientServices.PatientService.GetPatientById | src/main/java/com/healthcare/patientcare/service/PatientService.java:32-34 | finds the patient iff the id is stored, changing nothing |
| PatientServices.PatientService.GetAllPatients | src/main/java/com/healthcare/patientcare/service/PatientService.java:36-38 | every stored patient |
| PatientServices.PatientService.GetProgressNotesByPatientId | src/main/java/com/healthcare/patientcare/service/PatientService.java:40-42 | the patient's notes |
| PatientServices.PatientService.GetCarePlanByPatientId | src/main/java/com/healthcare/patientcare/service/PatientService.java:44-46 | the patient's plan query |
| PatientServices.PatientService.UpdateCarePlan | src/main/java/com/healthcare/patientcare/service/PatientService.java:48-64 | the setters and `save` produce `UpdatedCarePlan` of the old tables |
| PatientServices.PatientService.CreatePatient | src/main/java/com/healthcare/patientcare/service/PatientService.java:66-68 | produces `CreatedPatient` of the old tables |
| PatientServices.PatientService.AddProgressNote | src/main/java/com/healthcare/patientcare/service/PatientService.java:70-76 | produces `AddedProgressNote` of the old tables |
| AppointmentServices.CreatedAppointment | src/main/java/com/healthcare/patientcare/service/AppointmentService.java:41-49 | for an unknown patient, "Patient not found", and nothing changes; otherwise it is stored linked to the patient, its status "Scheduled" only when none was given, and its other fields as given |
| AppointmentServices.CreateAppointmentKeepsValid | src/main/java/com/healthcare/patientcare/service/AppointmentService.java:41-49 | the invariant holds, and the other tables are unchanged |
| AppointmentServices.UpdatedAppointment | src/main/java/com/healthcare/patientcare/service/AppointmentService.java:52-53 | for an unknown id, "Appointment not found", and nothing changes |
| AppointmentServices.UpdateAppointmentOverwritesFour | src/main/java/com/healthcare/patientcare/service/AppointmentService.java:51-59 | overwrites date, reason, status and provider with the request's values, nulls included; the id, the patient link and every other row are kept |
| AppointmentServices.CancelledAppointment | src/main/java/com/healthcare/patientcare/service/AppointmentService.java:62-63 | for an unknown id, "Appointment not found", and nothing changes |
| AppointmentServices.CancelSetsOnlyStatus | src/main/java/com/healthcare/patientcare/service/AppointmentService.java:61-66 | only the status changes, to "Cancelled" |
| AppointmentServices.CancelIdempotent | src/main/java/com/healthcare/patientcare/service/AppointmentService.java:61-66 | a second cancel gives the same state and the same result |
| AppointmentServices.DeletedAppointment | src/main/java/com/healthcare/patientcare/service/AppointmentService.java:68-70 | removes that id; every other appointment and table is unchanged |
| AppointmentServices.DeleteKeepsValid | src/main/java/com/healthcare/patientcare/service/AppointmentService.java:68-70 | the invariant holds, and a second delete changes nothing |
| AppointmentServices.AppointmentService.GetAppointmentById | src/main/java/com/healthcare/patientcare/service/AppointmentService.java:25-27 | finds the appointment iff the id is stored |
| AppointmentServices.AppointmentService.GetAllAppointments | src/main/java/com/healthcare/patientcare/service/AppointmentService.java:29-31 | every stored appointment |
| AppointmentServices.AppointmentService.GetAppointmentsByPatientId | src/main/java/com/healthcare/patientcare/service/AppointmentService.java:33-35 | exactly the appointments linked to the patient, changing nothing |
| AppointmentServices.AppointmentService.GetAppointmentsBetween | src/main/java/com/healthcare/patientcare/service/AppointmentService.java:37-39 | the appointments in the date range |
| AppointmentServices.AppointmentService.CreateAppointment | src/main/java/com/healthcare/patientcare/service/AppointmentService.java:41-49 | produces `CreatedAppointment` of the old tables |
| AppointmentServices.AppointmentService.UpdateAppointment | src/main/java/com/healthcare/patientcare/service/AppointmentService.java:51-59 | produces `UpdatedAppointment` of the old tables |
| AppointmentServices.AppointmentService.CancelAppointment | src/main/java/com/healthcare/patientcare/service/AppointmentService.java:61-66 | produces `CancelledAppointment` of the old tables |
| AppointmentServices.AppointmentService.DeleteAppointment | src/main/java/com/healthcare/patientcare/service/AppointmentService.java:68-70 | produces `DeletedAppointment` of the old tables |
| ToolService.ErrorPayload | src/main/java/com/healthcare/patientcare/mcp/service/MCPToolService.java:46 | the catch-all payload starts with `{"error": "` and ends with `"}`, and the unescaped message reads back from between them, so different messages give different payloads |
| ToolService.Respond | src/main/java/com/healthcare/patientcare/mcp/service/MCPToolService.java:41-46 | the JSON text of the result, or the error payload when serialisation throws |
| ToolService.Loaded | src/main/java/com/healthcare/patientcare/entity/Patient.java:34-38 | a patient's JSON carries the row, the stored notes and plans whose link is the patient's id (the `mappedBy = "patient"` side), and every stored note and plan linked to it |
| ToolService.GetPatientByNameTool | src/main/java/com/healthcare/patientcare/mcp/service/MCPToolService.java:31-48 | no patient of that name gives "Patient not found with name: <name>"; exactly one gives that patient with its notes and plan; several give the query's IncorrectResultSizeDataAccessException message |
| ToolService.GetPatientByIdTool | src/main/java/com/healthcare/patientcare/mcp/service/MCPToolService.java:50-67 | on valid tables a stored patient's JSON is its row with the notes and the plans linked to its id |
| ToolService.GetAllPatientsTool | src/main/java/com/healthcare/patientcare/mcp/service/MCPToolService.java:69-80 | on valid tables the JSON lists every stored patient, each with the notes and the plans linked to its id |
| ToolService.GetProgressNotesTool | src/main/java/com/healthcare/patientcare/mcp/service/MCPToolService.java:82-95 | on valid tables an id no patient has lists no notes, without an error |
| ToolService.GetCarePlanTool | src/main/java/com/healthcare/patientcare/mcp/service/MCPToolService.java:97-114 | no plan gives "Care plan not found for patient ID: <id>"; one plan gives its JSON; several give the query's IncorrectResultSizeDataAccessException message |
| ToolService.UpdateCarePlanTool | src/main/java/com/healthcare/patientcare/mcp/service/MCPToolService.java:116-141 | `update_care_plan` changes the care-plan table and no other table |
| ToolService.AddProgressNoteTool | src/main/java/com/healthcare/patientcare/mcp/service/MCPToolService.java:143-165 | `add_progress_note` changes the note table and no other table |
| ToolService.CreatePatientTool | src/main/java/com/healthcare/patientcare/mcp/service/MCPToolService.java:167-195 | `create_patient` changes the patient table and no other table |
| ToolService.ScheduleAppointmentTool | src/main/java/com/healthcare/patientcare/mcp/service/MCPToolService.java:197-219 | `schedule_appointment` changes the appointment table and no other table |
| ToolService.GetAppointmentsTool | src/main/java/com/healthcare/patientcare/mcp/service/MCPToolService.java:221-234 | on valid tables an id no patient has lists no appointments, without an error |
| ToolService.CancelAppointmentTool | src/main/java/com/healthcare/patientcare/mcp/service/MCPToolService.java:236-249 | an unknown appointment id gives "Appointment not found" and stores nothing; otherwise only the appointment table changes |
| ToolService.UnknownPatientPayloads | src/main/java/com/healthcare/patientcare/mcp/service/MCPToolService.java:62-217 | for an unknown patient id: "Patient not found with ID: <id>" from `get_patient_by_id`; "Patient not found" error payloads from `update_care_plan`, `add_progress_note` and (given a parsable date) `schedule_appointment`, with no state change |
| ToolService.UpdateCarePlanToolStores | src/main/java/com/healthcare/patientcare/mcp/service/MCPToolService.java:128-137 | the patient's single plan afterwards holds the text arguments unchanged, today's date as start and the date three months on as review |
| ToolService.ScheduleAppointmentToolStores | src/main/java/com/healthcare/patientcare/mcp/service/MCPToolService.java:207-215 | a stored appointment links the patient, has status "Scheduled" and carries the parsed date, the reason and the provider; the reply is its JSON |
| ToolService.UnparsableAppointmentDate | src/main/java/com/healthcare/patientcare/mcp/service/MCPToolService.java:207-217 | an appointment date that does not parse gives the parse exception's error payload, and nothing is stored |
| ToolService.UnparsableBirthDate | src/main/java/com/healthcare/patientcare/mcp/service/MCPToolService.java:181-194 | a birth date that does not parse gives the parse exception's error payload, and nothing is stored |
| ToolService.CancelAppointmentToolTwice | src/main/java/com/healthcare/patientcare/mcp/service/MCPToolService.java:243-248 | running `cancel_appointment` twice gives the same state and reply |
| ToolService.AddedNoteShowsInPatientJson | src/main/java/com/healthcare/patientcare/mcp/service/MCPToolService.java:50-165 | after `add_progress_note` for a stored patient, `get_patient_by_id` lists the new note under the next note id beside the patient's earlier notes, with the same row and plan |
| ToolService.CreatePatientToolAnswersAsStored | src/main/java/com/healthcare/patientcare/mcp/service/MCPToolService.java:167-195 | with a parsable birth date, `create_patient` fails on a patientId another patient has and stores nothing; otherwise it stores the patient under the next id, with no notes and no plan, and answers with the JSON `get_patient_by_id` gives for that id |
| ToolService.RunTool | src/main/java/com/healthcare/patientcare/mcp/MCPServer.java:128 | `Method.invoke` fails iff the arguments do not match the Java signature, and then changes nothing; every tool returns a String |
| ToolService.TableNamesDistinct | src/main/java/com/healthcare/patientcare/mcp/service/MCPToolService.java:31-249 | the eleven declarations have pairwise distinct names |
| ToolService.TableDeclarations | src/main/java/com/healthcare/patientcare/mcp/annotation/ToolParam.java:27 | no parameter overrides `required`, so all are required, and every declaration's parameter types are its method's signature |
| ToolService.TableRequired | src/main/java/com/healthcare/patientcare/mcp/annotation/ToolParam.java:27 | every declared parameter is annotated and required |
| ToolService.TableSignatures | src/main/java/com/healthcare/patientcare/mcp/service/MCPToolService.java:31-249 | every declaration's parameter types are its method's Java signature |
| ToolService.TableNames | src/main/java/com/healthcare/patientcare/mcp/service/MCPToolService.java:31-249 | every declaration is a `@Tool` with one of the eleven names |
| ToolService.DeclaresName | src/main/java/com/healthcare/patientcare/mcp/service/MCPToolService.java:31-249 | each declaration's name is a declared name |
| ToolService.ToolNamesDeclared | src/main/java/com/healthcare/patientcare/mcp/service/MCPToolService.java:31-249 | all eleven names are declared |
| ToolService.DeclaredToolNames | src/main/java/com/healthcare/patientcare/mcp/service/MCPToolService.java:31-249 | the declared names are exactly the eleven |
| ToolService.ToolNamesCount | src/main/java/com/healthcare/patientcare/mcp/service/MCPToolService.java:31-249 | there are eleven names |
| ToolService.MethodsOfBeans | src/main/java/com/healthcare/patientcare/mcp/MCPServer.java:33-38 | the scanned methods are those of MCPToolService |
| ToolService.RegistryKeys | src/main/java/com/healthcare/patientcare/mcp/service/MCPToolService.java:31-249 | the built registry's keys are exactly the eleven tool names |
| ToolService.RegistrySize | src/main/java/com/healthcare/patientcare/mcp/service/MCPToolService.java:31-249 | the registry has exactly eleven entries |
| ToolService.RegistryEntries | src/main/java/com/healthcare/patientcare/mcp/service/MCPToolService.java:31-249 | each name maps to its own declaration's descriptor |
| ToolService.Registered | src/main/java/com/healthcare/patientcare/mcp/service/MCPToolService.java:31-249 | declaration `i` is registered under its own name, with its own descriptor |
| ToolService.DeclarationOf | src/main/java/com/healthcare/patientcare/mcp/service/MCPToolService.java:31-249 | every registered tool comes from one declaration |
| ToolService.RegisteredParameters | src/main/java/com/healthcare/patientcare/mcp/annotation/ToolParam.java:27 | every registered parameter is required, with position `j` typed as the handler's `j`-th Java parameter |
| ToolService.RegisteredSchemasRequireAll | src/main/java/com/healthcare/patientcare/mcp/annotation/ToolParam.java:27 | every tool's `required` list is all its parameter names, in order |
| ToolService.GetAllPatientsSchema | src/main/java/com/healthcare/patientcare/mcp/service/MCPToolService.java:69-73 | `get_all_patients` has no parameters, so its schema has no `required` key |
| ToolService.PatientIdTypes | src/main/java/com/healthcare/patientcare/mcp/service/MCPToolService.java:55-173 | `patient_id` is a Long in every tool except `create_patient`, where it is a String |
| ToolService.TablePatientIds | src/main/java/com/healthcare/patientcare/mcp/service/MCPToolService.java:55-173 | in the declarations, `patient_id` is a String in `create_patient` and a Long elsewhere |
| ToolService.ConvertedFits | src/main/java/com/healthcare/patientcare/mcp/MCPServer.java:147-166 | a converted non-null value is an instance of its target class String or Long |
| ToolService.BoundArgumentsFit | src/main/java/com/healthcare/patientcare/mcp/MCPServer.java:116-128 | arguments that bind always match the tool method's signature, so `invoke` receives the right types |
| ToolService.MCPToolService.GetPatientByName | src/main/java/com/healthcare/patientcare/mcp/service/MCPToolService.java:31-48 | the body of `get_patient_by_name`: the patient's JSON with its notes and plan loaded from the database, "Patient not found with name: <name>", or the error payload |
| ToolService.MCPToolService.GetPatientById | src/main/java/com/healthcare/patientcare/mcp/service/MCPToolService.java:50-67 | the body of `get_patient_by_id`: the patient's JSON with its notes and plan loaded from the database, or "Patient not found with ID: <id>" |
| ToolService.MCPToolService.GetAllPatients | src/main/java/com/healthcare/patientcare/mcp/service/MCPToolService.java:69-80 | the body of `get_all_patients`: every patient's JSON, each with its notes and plan loaded from the database |
| ToolService.MCPToolService.GetProgressNotes | src/main/java/com/healthcare/patientcare/mcp/service/MCPToolService.java:82-95 | the body of `get_progress_notes` |
| ToolService.MCPToolService.GetCarePlan | src/main/java/com/healthcare/patientcare/mcp/service/MCPToolService.java:97-114 | the body of `get_care_plan`: the plan's JSON, "Care plan not found for patient ID: <id>", or the error payload |
| ToolService.MCPToolService.UpdateCarePlan | src/main/java/com/healthcare/patientcare/mcp/service/MCPToolService.java:116-141 | the body of `update_care_plan`, with its state change |
| ToolService.MCPToolService.AddProgressNote | src/main/java/com/healthcare/patientcare/mcp/service/MCPToolService.java:143-165 | the body of `add_progress_note`, with its state change |
| ToolService.MCPToolService.CreatePatient | src/main/java/com/healthcare/patientcare/mcp/service/MCPToolService.java:167-195 | the body of `create_patient`, with its state change; the answer is the new patient with no notes and no plan |
| ToolService.MCPToolService.ScheduleAppointment | src/main/java/com/healthcare/patientcare/mcp/service/MCPToolService.java:197-219 | the body of `schedule_appointment`, with its state change |
| ToolService.MCPToolService.GetAppointments | src/main/java/com/healthcare/patientcare/mcp/service/MCPToolService.java:221-234 | the body of `get_appointments` |
| ToolService.MCPToolService.CancelAppointment | src/main/java/com/healthcare/patientcare/mcp/service/MCPToolService.java:236-249 | the body of `cancel_appointment`, with its state change |
| ToolService.MCPToolService.Invoke | src/main/java/com/healthcare/patientcare/mcp/MCPServer.java:128 | `method.invoke(bean, args)` on the tool service: the new state and result are `RunTool` of the old state |
| Server.CallOutcome | src/main/java/com/healthcare/patientcare/mcp/MCPServer.java:107-134 | an unregistered or null name returns "Tool not found: <name>" without changing anything |
| Server.ScanParameters | src/main/java/com/healthcare/patientcare/mcp/MCPServer.java:50-61 | the parameter loop computes `ParametersOf` |
| Server.ScanBean | src/main/java/com/healthcare/patientcare/mcp/MCPServer.java:38-65 | the method loop computes `RegisterAll` |
| Server.BuildToolEntry | src/main/java/com/healthcare/patientcare/mcp/MCPServer.java:74-100 | the loop body builds `ToolEntry` |
| Server.EntriesAt | src/main/java/com/healthcare/patientcare/mcp/MCPServer.java:72-101 | the list has one entry per visited name, and entry `i` is that tool's entry |
| Server.Entries | src/main/java/com/healthcare/patientcare/mcp/MCPServer.java:72-101 | `tools/list` has exactly one entry per visited name |
| Server.EntriesOfPermutation | src/main/java/com/healthcare/patientcare/mcp/MCPServer.java:72-101 | visited in any order of its keys, the list has one entry per registered tool, includes every tool's entry, and holds nothing else |
| Server.EntriesSnoc | src/main/java/com/healthcare/patientcare/mcp/MCPServer.java:72-101 | visiting one more name appends that tool's entry |
| Server.VisitStep | src/main/java/com/healthcare/patientcare/mcp/MCPServer.java:72-101 | visiting one more unvisited registered name keeps the loop's bookkeeping |
| Server.VisitDone | src/main/java/com/healthcare/patientcare/mcp/MCPServer.java:72-101 | when nothing is left to visit, the visiting order is a permutation of the registry's keys |
| Server.ListEntries | src/main/java/com/healthcare/patientcare/mcp/MCPServer.java:72-104 | `listTools`' loop over `tools.values()` yields the entries of the registry in some order of its keys |
| Server.BoundCallsReachTheTool | src/main/java/com/healthcare/patientcare/mcp/MCPServer.java:116-129 | once binding succeeds, the tool runs, and its String is the reply |
| Server.MissingArgumentReported | src/main/java/com/healthcare/patientcare/mcp/MCPServer.java:117-123 | the first absent required argument gives "Missing required parameter: <name>", and the tool is not invoked |
| Server.ConversionFailureReported | src/main/java/com/healthcare/patientcare/mcp/MCPServer.java:124-133 | a conversion that throws while binding gives "Error calling tool: <message>" and leaves the tables as they were, so the tool is never invoked |
| Server.LookupsReadOnly | src/main/java/com/healthcare/patientcare/mcp/MCPServer.java:107-134 | calling a lookup tool changes nothing stored, whatever the registry and the arguments |
| Server.GetPatientByIdRegistered | src/main/java/com/healthcare/patientcare/mcp/service/MCPToolService.java:50-56 | `get_patient_by_id` is registered with its description, its handler and one required Long parameter `patient_id` |
| Server.SevenBindsToLong | src/main/java/com/healthcare/patientcare/mcp/MCPServer.java:151-154 | the text "7" binds to a Long parameter as 7 |
| Server.PatientIdAsText | src/main/java/com/healthcare/patientcare/mcp/MCPServer.java:151-154 | `get_patient_by_id` with `patient_id` "7" runs the tool with the Long 7 |
| Server.MCPServer.InitializeTools | src/main/java/com/healthcare/patientcare/mcp/MCPServer.java:25-67 | idempotent: when the registry exists, nothing changes; otherwise it becomes the registry built from the beans |
| Server.MCPServer.ListTools | src/main/java/com/healthcare/patientcare/mcp/MCPServer.java:69-105 | the registry is initialised, and the list is its tools' entries in some order of the keys |
| Server.MCPServer.CallTool | src/main/java/com/healthcare/patientcare/mcp/MCPServer.java:107-134 | the registry is initialised; the new state and the reply are `CallOutcome` of the old state |
| Controller.Envelope | src/main/java/com/healthcare/patientcare/mcp/controller/MCPController.java:22-24 | a response has exactly `jsonrpc` "2.0", the echoed `id`, and one of `result` or `error` |
| Controller.RpcError | src/main/java/com/healthcare/patientcare/mcp/controller/MCPController.java:43-51 | an error object has exactly `code` and `message` |
| Controller.InitializeResult | src/main/java/com/healthcare/patientcare/mcp/controller/MCPController.java:58-69 | `protocolVersion` "2024-11-05", `serverInfo` {name "patient-care-system", version "1.0.0"}, `capabilities` {tools: {}} |
| Controller.ToolsCallResult | src/main/java/com/healthcare/patientcare/mcp/controller/MCPController.java:88-97 | exactly `content`: one text item holding the tool's string |
| Controller.ToolsCall | src/main/java/com/healthcare/patientcare/mcp/controller/MCPController.java:77-98 | a failing `tools/call` (null params, a bad cast) changes nothing |
| Controller.RepliesAreResponses | src/main/java/com/healthcare/patientcare/mcp/controller/MCPController.java:18-56 | every 200 reply has `jsonrpc` "2.0", the request's `id` (null when absent), and exactly one of `result` and `error` |
| Controller.InitializeBranch | src/main/java/com/healthcare/patientcare/mcp/controller/MCPController.java:28-29 | `initialize` answers a result holding the fixed server description, whatever the params, and stores nothing |
| Controller.NullMethodIsInternalError | src/main/java/com/healthcare/patientcare/mcp/controller/MCPController.java:27 | a null or absent `method` gives error -32603 "Internal error: <message>" and stores nothing |
| Controller.NullParamsIsInternalError | src/main/java/com/healthcare/patientcare/mcp/controller/MCPController.java:77-78 | a `tools/call` with null or absent `params` gives error -32603 "Internal error: <message>" and stores nothing |
| Controller.ToolsCallWraps | src/main/java/com/healthcare/patientcare/mcp/controller/MCPController.java:77-97 | a `tools/call` with a string or null name and map or null arguments succeeds with `callTool`'s text as its one content item, even when that text is an error payload |
| Controller.UnknownMethod | src/main/java/com/healthcare/patientcare/mcp/controller/MCPController.java:42-46 | any other string method gives error -32601 "Method not found: <method>" |
| Controller.NonStringMethod | src/main/java/com/healthcare/patientcare/mcp/controller/MCPController.java:19 | a method that is not a string escapes as a server error and changes nothing |
| Controller.UnknownToolIsResult | src/main/java/com/healthcare/patientcare/mcp/controller/MCPController.java:36-97 | an unknown tool name is a successful result whose text is "Tool not found: <name>" |
| Controller.AbsentArgumentsAreEmpty | src/main/java/com/healthcare/patientcare/mcp/controller/MCPController.java:80-84 | null or absent `arguments` act as an empty map |
| Controller.FailedCallsStoreNothing | src/main/java/com/healthcare/patientcare/mcp/controller/MCPController.java:38-80 | an exception in `tools/call` gives exactly the -32603 internal-error envelope for it, and changes nothing |
| Controller.ToolsCallBranch | src/main/java/com/healthcare/patientcare/mcp/controller/MCPController.java:36-53 | a `tools/call` request is answered with `handleToolsCall`'s value as the result, or with its exception as a -32603 error, in the state it leaves |
| Controller.ToolsListBranch | src/main/java/com/healthcare/patientcare/mcp/controller/MCPController.java:32-34 | a `tools/list` request is answered with the tools' entries, in the visiting order, and changes nothing |
| Controller.HandleRequest | src/main/java/com/healthcare/patientcare/mcp/controller/MCPController.java:18-56 | only a `tools/call` request can change the tables; the reply is HTTP 500 exactly when `method` is present and neither a string nor null |
| Controller.UnknownToolCall | src/main/java/com/healthcare/patientcare/mcp/controller/MCPController.java:77-98 | `handleToolsCall` for an unregistered name returns the "Tool not found: <name>" text as its result and changes nothing |
| Controller.MCPController.HandleToolsCall | src/main/java/com/healthcare/patientcare/mcp/controller/MCPController.java:77-98 | the state and outcome are `ToolsCall` of the old state |
| Controller.MCPController.HandleMCPRequest | src/main/java/com/healthcare/patientcare/mcp/controller/MCPController.java:18-56 | the state and reply are `HandleRequest` of the old state; for `tools/list`, the visiting order is a permutation of the registry's keys |

## Left out

- The stdin-to-HTTP bridge in MCPServerWrapper.java is line-by-line I/O with
  no logic of its own.
- Spring's bean discovery and Java reflection are replaced by a declaration
  table (`ToolService.ToolTable`) and the `MethodRef` handles. The model
  scans one bean, MCPToolService. Any exception that `getBean` could throw
  is not modelled.
- `ToolMetadata.bean` is not modelled. Every handle is invoked on the one
  `MCPToolService` object.
- Jackson serialisation of results is `Env.toJson`, and its output text is
  not modelled. The hand-built error strings are concatenations, so their
  JSON validity is not claimed.
- The messages of JDK, Spring and Hibernate exceptions are external
  (`Env.describe`). That includes a null `getMessage`, which Java prints as
  "null".
- The clock, ISO-8601 date parsing and `plusMonths(3)` are external, through
  `Env`. Dates are held as their text.
- `Double.parseDouble` is floating point. It is an external partial function
  that returns the text of the parsed number. No declared tool takes a
  Double.
- JavaNumbers.ParseLong: Java also accepts non-ASCII Unicode digits; the model
  accepts ASCII digits only.
- Concurrency is not modelled. The lazy `tools` initialisation is unsynchronised
  and can race; the model is single-threaded.
- `HashMap` iteration order is not modelled.
  - `listTools` is stated up to a permutation of the registry's keys.
  - Maps the model builds keep insertion order.
  - `Map.of` in `handleInitialize` is shown in one fixed order.
- Repositories.PatientSaved: ids are drawn only for rows that are stored. With
  an IDENTITY id on H2, an insert that the unique patientId index rejects has
  already used up an identity value, so the next patient's id skips one; the
  model does not advance `nextPatient` on that failure and leaves such gaps out.
- JPA details are left out: transactions, cascades, orphan removal, NOT NULL
  columns and column lengths. Lazy associations are read as loaded from the current tables when
  Jackson writes them. The unique patientId column and the one plan per
  patient are kept.
- `getProgressNotesByPatientId`, `getAllPatients`, `getAppointmentsByPatientId`
  and `getAppointmentsBetween` return Java lists. Here they return maps by id,
  so list order is not modelled.
- `findByAppointmentDateBetween` compares dates. The comparison is the given
  `notAfter` relation. AppointmentRepository.java is not part of this model.
- ToolService.RunTool: a Java `null` argument to a tool method is reported as a
  signature mismatch. This is unreachable, because every declared parameter is
  required.
- Binder.IsInstance: no value is an instance of a class other than the listed
  wrapper types and String.
- Jackson keeps the last of two members with the same name in a JSON object;
  `JsonValues.Get` reads the first. The model assumes requests whose objects
  have no repeated member names.
- A request body that is not a JSON object is rejected by Spring with HTTP 400
  before the controller runs. The model starts from the decoded map.
- The REST controllers (PatientController.java, AppointmentController.java),
  DataInitializer.java and PatientCareApplication.java are not part of this
  model.
