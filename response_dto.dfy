/**
 * The generic response body: an error flag, a message and optional data.
 * The mutators change the receiver and return it, so calls can be chained;
 * the constructors make a fresh body. `D` is the type of the data; None is
 * Go's nil.
 */
module ResponseDto {
  import opened Wrappers

  class Response<D> {
    var error: bool
    var message: string
    var data: Option<D>

    /** `NewResponse`: the zero body. */
    constructor ()
      ensures !error && message == "" && data == None
    {
      error := false;
      message := "";
      data := None;
    }

    /** `Ok`: a success with the message; the data stays. */
    method Ok(message: string) returns (self: Response<D>)
      modifies this
      ensures self == this
      ensures !error && this.message == message && data == old(data)
    {
      error := false;
      this.message := message;
      self := this;
    }

    /** `WithData`: replaces the data and nothing else. */
    method WithData(d: Option<D>) returns (self: Response<D>)
      modifies this
      ensures self == this
      ensures data == d && error == old(error) && message == old(message)
    {
      data := d;
      self := this;
    }

    /** `Fail`: an error with the message; the data is cleared. */
    method Fail(message: string) returns (self: Response<D>)
      modifies this
      ensures self == this
      ensures error && this.message == message && data == None
    {
      error := true;
      this.message := message;
      data := None;
      self := this;
    }
  }

  /** `Success`: a fresh success body without data. */
  method Success<D>(message: string) returns (r: Response<D>)
    ensures fresh(r)
    ensures !r.error && r.message == message && r.data == None
  {
    r := new Response();
    r.message := message;
  }

  /** `SuccessWithData`: a fresh success body with data. */
  method SuccessWithData<D>(message: string, d: Option<D>) returns (r: Response<D>)
    ensures fresh(r)
    ensures !r.error && r.message == message && r.data == d
  {
    r := new Response();
    r.message := message;
    r.data := d;
  }

  /** `Error`: a fresh error body without data. */
  method Error<D>(message: string) returns (r: Response<D>)
    ensures fresh(r)
    ensures r.error && r.message == message && r.data == None
  {
    r := new Response();
    r.error := true;
    r.message := message;
  }

  /**
   * Chaining on one body: `NewResponse().Ok(m).WithData(d)` ends in the state
   * `SuccessWithData(m, d)` builds, and a later `Fail(e)` on it is `Error(e)`.
   */
  method Chaining<D>(m: string, d: Option<D>, e: string) returns (r: Response<D>)
    ensures fresh(r)
    ensures r.error && r.message == e && r.data == None
  {
    r := new Response();
    var s := r.Ok(m);
    s := s.WithData(d);
    assert s == r && !r.error && r.message == m && r.data == d;
    s := s.Fail(e);
  }
}
