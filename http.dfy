/** The JSON reply an API route sends: a status code and the fields of the
    body. A field the route leaves out of the body is None. The `message`
    field is always one of the routes' fixed texts, so it is kept as the
    name of that text. */
module Http {
  import opened JsString

  datatype Message =
    | MethodNotAllowed
    // pages/api/contact.js
    | FillRequiredFields | EnterValidEmail | SendFailed | UnexpectedError | MessageSent
    // pages/api/leads.js
    | MissingRequiredFields | InvalidEmailFormat | LeadSubmitted | InternalServerError

  /** The text each reply carries in its `message` field. */
  function Text(m: Message): string {
    match m
    case MethodNotAllowed => "Method not allowed"
    case FillRequiredFields => "Please fill in all required fields"
    case EnterValidEmail => "Please enter a valid email address"
    case SendFailed => "Failed to send message. Please try again later."
    case UnexpectedError => "An unexpected error occurred. Please try again."
    case MessageSent => "Your message has been sent successfully!"
    case MissingRequiredFields => "Missing required fields"
    case InvalidEmailFormat => "Invalid email format"
    case LeadSubmitted => "Lead submitted successfully"
    case InternalServerError => "Internal server error"
  }

  datatype Reply = Reply(status: nat, success: Option<bool>, message: Message, id: Option<string>)
}
