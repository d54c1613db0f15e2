/** The slice of Go's `net/http` the exporter's responses are made of: status
    codes, header names, `http.Error`, and a plain `Write` of a body. */
module Http {

  const StatusOK: int := 200
  const StatusBadRequest: int := 400
  const StatusUnauthorized: int := 401
  const StatusForbidden: int := 403
  const StatusInternalServerError: int := 500

  const ContentType: string := "Content-Type"
  const ContentDisposition: string := "Content-Disposition"
  const ContentTypeOptions: string := "X-Content-Type-Options"
  const WwwAuthenticate: string := "WWW-Authenticate"

  /** What the response carries: literal bytes, or the contents of a file
      copied to the client (`io.Copy` from an open file). */
  datatype Body = Text(text: string) | FileContents(path: string)

  /** One HTTP response: status, the header map as set, and the body. */
  datatype Response = Response(status: int, header: map<string, string>, body: Body)

  /** `http.Error(w, message, code)` on top of the headers set so far: plain
      text, no sniffing, the message followed by a newline. */
  function Error(header: map<string, string>, message: string, code: int): Response {
    Response(code,
             header[ContentType := "text/plain; charset=utf-8"][ContentTypeOptions := "nosniff"],
             Text(message + "\n"))
  }

  /** `w.Write(body)` with no explicit status: Go answers 200. */
  function Write(header: map<string, string>, body: Body): Response {
    Response(StatusOK, header, body)
  }

  /** The message of an `http.Error` response (its body without the newline). */
  predicate IsError(r: Response, code: int, message: string) {
    r.status == code && r.body == Text(message + "\n")
    && ContentType in r.header && r.header[ContentType] == "text/plain; charset=utf-8"
  }
}
