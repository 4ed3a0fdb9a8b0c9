/**
 * The argument validator of the JAXB runtime (com.sun.xml.bind.v2.util.Validate).
 * Each check either passes or throws; a thrown exception is modelled as a
 * `Thrown` outcome carrying the exception class and its message.
 */
module Validation {
  import opened Wrappers

  /** The two exception classes the validator throws. */
  datatype ExceptionKind = NullPointerException | IllegalArgumentException

  /** The effect of one check: return normally, or throw with a (nullable) message. */
  datatype Outcome = Pass | Thrown(exception: ExceptionKind, message: Option<string>)

  const MessagePrefix: string := "Cannot handle "
  const MessageSuffix: string := " argument."

  /** The part of a message that names the argument, empty when no name is supplied. */
  function NamePart(argumentName: Option<string>): string
  {
    match argumentName
    case None => ""
    case Some(n) => " '" + n + "'"
  }

  /**
   * The exception message: the fixed prefix, the definition word, the quoted
   * argument name when one is supplied, and the fixed suffix.
   */
  function GetMessage(exceptionDefinition: string, argumentName: Option<string>): (m: string)
    ensures |m| == |MessagePrefix| + |exceptionDefinition| + |NamePart(argumentName)| + |MessageSuffix|
    ensures m[..|MessagePrefix|] == MessagePrefix
    ensures m[|MessagePrefix|..|MessagePrefix| + |exceptionDefinition|] == exceptionDefinition
    ensures m[|m| - |MessageSuffix|..] == MessageSuffix
    ensures argumentName.None? <==> |m| == |MessagePrefix| + |exceptionDefinition| + |MessageSuffix|
  {
    MessagePrefix + exceptionDefinition + NamePart(argumentName) + MessageSuffix
  }

  /**
   * Reads back the argument name from a message built for the definition word
   * `exceptionDefinition`: `Some(None)` for a message without a name,
   * `Some(Some(n))` for one naming `n`, `None` for text of another shape.
   */
  function ArgumentNameIn(exceptionDefinition: string, m: string): Option<Option<string>>
  {
    var head := MessagePrefix + exceptionDefinition;
    if |m| < |head| + |MessageSuffix| || m[..|head|] != head || m[|m| - |MessageSuffix|..] != MessageSuffix then
      None
    else
      var middle := m[|head|..|m| - |MessageSuffix|];
      if middle == [] then Some(None)
      else if |middle| >= 3 && middle[..2] == " '" && middle[|middle| - 1] == '\'' then
        Some(Some(middle[2..|middle| - 1]))
      else None
  }

  /** The argument name survives the message: it can always be read back. */
  lemma MessageRoundTrip(exceptionDefinition: string, argumentName: Option<string>)
    ensures ArgumentNameIn(exceptionDefinition, GetMessage(exceptionDefinition, argumentName)) == Some(argumentName)
  {
  }

  /** Two messages with the same definition word are equal only for the same argument name. */
  lemma MessageDeterminesArgumentName(exceptionDefinition: string, a: Option<string>, b: Option<string>)
    requires GetMessage(exceptionDefinition, a) == GetMessage(exceptionDefinition, b)
    ensures a == b
  {
    MessageRoundTrip(exceptionDefinition, a);
    MessageRoundTrip(exceptionDefinition, b);
  }

  /** A "null" message is never an "empty" message, whatever the argument names. */
  lemma NullAndEmptyMessagesDiffer(a: Option<string>, b: Option<string>)
    ensures GetMessage("null", a) != GetMessage("empty", b)
  {
    var i := |MessagePrefix|;
    assert GetMessage("null", a)[i] == 'n';
    assert GetMessage("empty", b)[i] == 'e';
  }

  /** `notNull`: throws a NullPointerException with the "null" message iff the object is null. */
  function NotNull<T>(obj: Option<T>, argumentName: Option<string>): (r: Outcome)
    ensures r.Pass? <==> obj.Some?
    ensures r.Thrown? ==> r.exception == NullPointerException
    ensures r.Thrown? ==> r.message == Some(GetMessage("null", argumentName))
  {
    if obj.None? then Thrown(NullPointerException, Some(GetMessage("null", argumentName)))
    else Pass
  }

  /**
   * `notEmpty`: the null check comes first and fails exactly as `notNull`;
   * a zero-length string then throws an IllegalArgumentException with the
   * "empty" message; any other string passes.
   */
  function NotEmpty(aString: Option<string>, argumentName: Option<string>): (r: Outcome)
    ensures aString.None? ==> r == NotNull(aString, argumentName)
    ensures r.Pass? <==> aString.Some? && |aString.value| > 0
    ensures aString == Some("") ==> r == Thrown(IllegalArgumentException, Some(GetMessage("empty", argumentName)))
  {
    var sanity := NotNull(aString, argumentName);
    if sanity.Thrown? then sanity
    else if |aString.value| == 0 then Thrown(IllegalArgumentException, Some(GetMessage("empty", argumentName)))
    else Pass
  }

  /** `isTrue`: throws an IllegalArgumentException carrying exactly `message` iff the condition is false. */
  function IsTrue(condition: bool, message: Option<string>): (r: Outcome)
    ensures r.Pass? <==> condition
    ensures !condition ==> r == Thrown(IllegalArgumentException, message)
  {
    if !condition then Thrown(IllegalArgumentException, message) else Pass
  }

  /** The two failures of `notEmpty` are told apart by exception class and by message. */
  lemma NotEmptyFailuresDistinct(argumentName: Option<string>)
    ensures NotEmpty(None, argumentName).exception != NotEmpty(Some(""), argumentName).exception
    ensures NotEmpty(None, argumentName).message != NotEmpty(Some(""), argumentName).message
  {
  }
}
