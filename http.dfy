/** The part of Go's net/http response writer the handler relies on: the
    status line is fixed by the first WriteHeader, or by the first body write
    (which implies 200 OK), or, when the handler writes nothing, is 200 OK;
    a later WriteHeader is ignored. */
module Http {

  const StatusOK := 200
  const StatusBadRequest := 400
  const StatusInternalServerError := 500
  const StatusBadGateway := 502

  /** The value of a response writer: whether the header has gone out, with
      which status, and the body written so far. */
  datatype Writer = Writer(wroteHeader: bool, status: int, body: string)
  {
    /** The status the client receives if the handler stopped now. */
    function Status(): int {
      if wroteHeader then status else StatusOK
    }

    /** WriteHeader(code): takes effect only if nothing was sent yet. */
    function WithHeader(code: int): (w: Writer)
      ensures w.wroteHeader && w.body == body
      ensures w.Status() == if wroteHeader then Status() else code
    {
      if wroteHeader then this else Writer(true, code, body)
    }

    /** Write(text): sends the header first (200 unless already sent), then appends. */
    function WithBody(text: string): (w: Writer)
      ensures w.wroteHeader && w.Status() == Status() && w.body == body + text
    {
      Writer(true, Status(), body + text)
    }
  }

  /** A writer nothing has been written to. */
  const Unwritten := Writer(false, 0, "")

  class ResponseWriter {
    var wroteHeader: bool
    var status: int
    var body: string

    function State(): Writer
      reads this
    {
      Writer(wroteHeader, status, body)
    }

    constructor ()
      ensures State() == Unwritten
    {
      wroteHeader, status, body := false, 0, "";
    }

    method WriteHeader(code: int)
      modifies this
      ensures State() == old(State()).WithHeader(code)
    {
      if !wroteHeader {
        wroteHeader, status := true, code;
      }
    }

    method Write(text: string)
      modifies this
      ensures State() == old(State()).WithBody(text)
    {
      if !wroteHeader {
        wroteHeader, status := true, StatusOK;
      }
      body := body + text;
    }
  }
}
