/** The outcome of a Firebase task as the sign-in and sign-up screens read
    it in their completion listeners: success, or failure with an exception
    whose message may be null. */
module FirebaseTask {
  import opened KotlinStd

  datatype TaskResult = Succeeded | Failed(message: Option<string>)

  /** `task.exception?.message ?: fallback`: the exception's message when it
      has one, even an empty one, else the fallback. */
  function FailureText(message: Option<string>, fallback: string): (t: string)
    ensures message.Some? ==> t == message.value
    ensures message.None? ==> t == fallback
  {
    message.GetOr(fallback)
  }

  /** A Kotlin string template prints a null message as "null". */
  function TemplateText(message: Option<string>): (t: string)
    ensures message.Some? ==> t == message.value
    ensures message.None? ==> t == "null"
  {
    FailureText(message, "null")
  }
}
