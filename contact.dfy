/**
 * The contact page's form: four required fields edited by name, a submit
 * that posts the fields as JSON to the local relay and awaits the reply,
 * a success panel shown in place of the form, and a reset three seconds
 * after a success.
 *
 * The awaited fetch is split into two events: `Submit` (the handler up to
 * the `await`, returning the request it sends) and `Settle` (the rest of
 * the handler, given how the fetch ended). The 3 s reset timeout is the
 * flag `resetPending` and the event `FireReset`.
 */
module Contact {
  import opened Wrappers
  import Relay

  const ContactUrl: string := "http://localhost:3001/api/contact"

  /** The form targets the relay's contact route on the relay's default port. */
  lemma UrlTargetsRelay()
    ensures ContactUrl == "http://localhost:" + Relay.DefaultPort + Relay.ContactRoute
  {
  }

  datatype Field = Name | Email | Phone | Message

  datatype FormData = FormData(name: string, email: string, phone: string, message: string)

  const Blank: FormData := FormData("", "", "", "")

  function Get(d: FormData, f: Field): string
  {
    match f
    case Name => d.name
    case Email => d.email
    case Phone => d.phone
    case Message => d.message
  }

  /** `{ ...prev, [name]: value }`. */
  function WithField(d: FormData, f: Field, v: string): (r: FormData)
    ensures Get(r, f) == v
    ensures forall g :: g != f ==> Get(r, g) == Get(d, g)
  {
    match f
    case Name => d.(name := v)
    case Email => d.(email := v)
    case Phone => d.(phone := v)
    case Message => d.(message := v)
  }

  /** Writing back the value a field already holds changes nothing. */
  lemma WithFieldSame(d: FormData, f: Field)
    ensures WithField(d, f, Get(d, f)) == d
  {
  }

  /** The last of two writes to the same field wins. */
  lemma WithFieldTwice(d: FormData, f: Field, v: string, w: string)
    ensures WithField(WithField(d, f, v), f, w) == WithField(d, f, w)
  {
  }

  /** Every field is `required`: the browser blocks the submit while one is empty. */
  predicate Complete(d: FormData)
  {
    forall f: Field :: Get(d, f) != ""
  }

  /** The `fetch` the submit handler starts. */
  datatype Request = Request(url: string, verb: string, contentType: string, body: FormData)

  /** How the fetch ended: a response with a status, or a thrown error. */
  datatype Outcome = Responded(status: int, text: string) | Threw

  /** `response.ok`; parsing the text is only logged, so it does not matter. */
  predicate Succeeded(o: Outcome)
  {
    o.Responded? && Relay.IsOk(o.status)
  }

  class Form {
    var data: FormData
    var isSubmitting: bool
    var isSubmitted: bool
    var resetPending: bool

    ghost predicate Valid()
      reads this
    {
      && (isSubmitted ==> !isSubmitting)
      && (resetPending <==> isSubmitted)
    }

    constructor()
      ensures Valid()
      ensures data == Blank && !isSubmitting && !isSubmitted && !resetPending
    {
      data := Blank;
      isSubmitting := false;
      isSubmitted := false;
      resetPending := false;
    }

    /** The form itself is rendered only while no success panel replaces it. */
    function FormShown(): bool
      reads this
    {
      !isSubmitted
    }

    /** `handleChange` on the input named `f`; the inputs stay editable while a submit is in flight. */
    method Change(f: Field, v: string)
      requires Valid() && FormShown()
      modifies this
      ensures Valid()
      ensures data == WithField(old(data), f, v)
      ensures isSubmitting == old(isSubmitting) && isSubmitted == old(isSubmitted)
      ensures resetPending == old(resetPending)
    {
      data := WithField(data, f, v);
    }

    /**
     * Submitting the form. Nothing is sent while the submit button is
     * disabled (a submit is in flight) or a required field is empty;
     * otherwise the handler marks the form as submitting and posts the
     * current fields as JSON to the relay.
     */
    method Submit() returns (req: Option<Request>)
      requires Valid() && FormShown()
      modifies this
      ensures Valid()
      ensures req.Some? <==> !old(isSubmitting) && Complete(old(data))
      ensures req.Some? ==> req.value == Request(ContactUrl, "POST", "application/json", old(data))
      ensures req.Some? ==> isSubmitting
      ensures req.None? ==> isSubmitting == old(isSubmitting)
      ensures data == old(data) && isSubmitted == old(isSubmitted) && resetPending == old(resetPending)
    {
      if isSubmitting || !Complete(data) {
        return None;
      }
      isSubmitting := true;
      req := Some(Request(ContactUrl, "POST", "application/json", data));
    }

    /**
     * The awaited fetch ends. The form stops submitting; it shows the
     * success panel and schedules the reset exactly when the response was
     * ok; on a failure the entered fields stay as they are.
     */
    method Settle(o: Outcome)
      requires Valid() && isSubmitting
      modifies this
      ensures Valid()
      ensures !isSubmitting
      ensures isSubmitted <==> Succeeded(o)
      ensures resetPending <==> Succeeded(o)
      ensures data == old(data)
    {
      isSubmitting := false;
      isSubmitted := Succeeded(o);
      resetPending := Succeeded(o);
    }

    /** The reset three seconds after a success: back to an empty form. */
    method FireReset()
      requires Valid() && resetPending
      modifies this
      ensures Valid()
      ensures !isSubmitted && !resetPending && !isSubmitting
      ensures data == Blank && FormShown()
    {
      isSubmitted := false;
      resetPending := false;
      data := Blank;
    }
  }

  /**
   * Through the relay, the form succeeds exactly when the upstream script
   * was reached and answered 2xx, whether or not its reply is JSON.
   */
  lemma SuccessThroughRelay<J>(up: Relay.Upstream, parse: string -> Option<J>)
    ensures var r := Relay.ContactReply(up, parse);
      Succeeded(Responded(r.status, "")) <==> up.Reached? && Relay.IsOk(up.status)
  {
  }
}
