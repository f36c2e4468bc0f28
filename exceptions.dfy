/**
 * The exceptions that travel through the tool layer. Messages that this
 * repository writes itself are held as text; messages produced by the JVM or by
 * a library (null dereferences, failed casts, reflection, JPA, date parsing)
 * are described by a `Fault`, whose text the model receives from outside.
 */
module JavaExceptions {
  import opened JsonValues

  datatype Fault =
    | NullReference(expression: string)        // a method called on a null reference
    | ClassCast(value: Value, target: string)  // a cast of a decoded JSON value to `target`
    | ArgumentMismatch                         // Method.invoke given arguments the method cannot take
    | NonUniqueResult(count: nat)              // a single-result query that matched `count` rows
    | DateTimeParse(text: string)              // LocalDate.parse or LocalDateTime.parse rejected `text`
    | DoubleFormat(text: string)               // Double.parseDouble rejected `text`
    | UniqueViolation(column: string)          // an insert that repeats a value of a unique column

  datatype Exception =
    | RuntimeException(message: string)        // `new RuntimeException(message)` in the services
    | NumberFormat(input: string)              // NumberFormatException.forInputString(input)
    | Raised(fault: Fault)

  /** `e.getMessage()`, with `describe` supplying the text of JVM and library faults. */
  function GetMessage(e: Exception, describe: Fault -> string): (m: string)
    ensures e.RuntimeException? ==> m == e.message
  {
    match e
    case RuntimeException(message) => message
    case NumberFormat(input) => "For input string: \"" + input + "\""
    case Raised(f) => describe(f)
  }
}
