/**
 * The classes the authentication core talks to but that are not part of
 * this model: the HTTP provider's response object, the exceptions that cross
 * the core's boundary, and java.net.URL's syntax check. They appear here only
 * as the values that flow in and out of the core.
 */
module Collaborators {
  import opened Wrappers

  /** What `HttpRestProvider.post` returns: response headers and body. */
  datatype HeaderAndBody = HeaderAndBody(headers: map<string, string>, body: string)

  /** The exceptions that leave the core, synchronously or through a callback. */
  datatype Error =
    | MalformedUrl(spec: string)             // java.net.MalformedURLException for `new URL(spec)`
    | IllegalArgument(message: string)       // IllegalArgumentException with a message
    | IllegalArgumentCausedBy(cause: Error)  // IllegalArgumentException wrapping another exception
    | UnsupportedOperation(message: string)  // UnsupportedOperationException
    | HttpFailure(statusCode: int)           // HttpException raised by the provider on a non-2xx status
    | IoFailure(message: string)             // any other exception raised by the provider

  /** The result of one `post`: the response, or the exception it threw. */
  type PostOutcome = Result<HeaderAndBody, Error>

  /** One HTTP POST of a request body to a URL, as a pure input of the model. */
  type Post = (string, string) -> PostOutcome

  /** Whether `new URL(spec)` accepts `spec`; java.net.URL parsing is not modelled. */
  type UrlSyntax = string -> bool
}
