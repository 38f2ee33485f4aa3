/**
 * What the scripts exchange with the services they call (HTTP, language
 * models, the file system).  Every external call is modelled as an oracle:
 * a function parameter that answers either with a value or with the kind of
 * exception the Python call would raise.
 */
module Oracles {

  /** The exception classes the scripts distinguish in their handlers. */
  datatype ErrorKind =
    | ServerError        // google.genai.errors.ServerError
    | OpenAIError        // openai.OpenAIError
    | JsonDecodeError    // json.JSONDecodeError
    | ValueError         // raised for an unknown model family
    | NameError          // reading a name that was never bound
    | RequestError       // requests.exceptions.RequestException (including raise_for_status)
    | FileNotFoundError  // open() of a missing file
    | IoError            // an IOError (OSError) other than FileNotFoundError, as raised by file and socket operations
    | TypeError          // an operation applied to a value of the wrong type, such as write(None)
    | OtherError         // any other Exception subclass

  /** The answer of one external call. */
  datatype Reply<T> = Ok(value: T) | Err(error: ErrorKind)

  /** One chat message, as the OpenAI and Ollama clients take them. */
  datatype Message = Message(role: string, content: string)

  /** A decoded JSON answer of a language model, kept as its text. */
  datatype Json = Json(text: string)
}
