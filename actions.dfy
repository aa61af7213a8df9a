/**
 * The mock service functions the handlers call. Each call either takes effect,
 * which appends one event to a trace, or raises, which records nothing.
 */
module Actions {
  import opened Wrappers

  /** One call to a service function, with its arguments. */
  datatype Action =
    | SendComplaintResponse(emailId: string, response: Option<string>)
    | SendStandardResponse(emailId: string, response: Option<string>)
    | CreateUrgentTicket(emailId: string, category: string, context: string)
    | CreateSupportTicket(emailId: string, context: string)
    | LogCustomerFeedback(emailId: string, feedback: string)

  /** The call sends a reply to the customer. */
  predicate IsSend(a: Action) {
    a.SendComplaintResponse? || a.SendStandardResponse?
  }

  /** No call of `plan` raises. */
  predicate Clean(plan: seq<Action>, refuses: Action -> bool) {
    forall i :: 0 <= i < |plan| ==> !refuses(plan[i])
  }

  /** The calls of `plan` that take effect when they are made one after another
      and the first one that raises ends the sequence: the longest prefix of
      `plan` in which no call raises. */
  function Completed(plan: seq<Action>, refuses: Action -> bool): (done: seq<Action>)
    ensures done <= plan
    ensures Clean(done, refuses)
    ensures |done| < |plan| ==> refuses(plan[|done|])
  {
    if plan == [] || refuses(plan[0]) then [] else [plan[0]] + Completed(plan[1..], refuses)
  }

  /** Every call of the plan takes effect exactly when none of them raises. */
  lemma CompletedAllIffClean(plan: seq<Action>, refuses: Action -> bool)
    ensures Completed(plan, refuses) == plan <==> Clean(plan, refuses)
  {
  }

  /** When call `k` is the first to raise, exactly the calls before it take
      effect and none after it. */
  lemma CompletedStopsAtFirstFault(plan: seq<Action>, refuses: Action -> bool, k: nat)
    requires k < |plan| && refuses(plan[k])
    requires forall j :: 0 <= j < k ==> !refuses(plan[j])
    ensures Completed(plan, refuses) == plan[..k]
  {
  }

  /** The services the handlers call, with the trace of the calls that took effect. */
  class Services {
    /** The calls that took effect, oldest first. */
    var trace: seq<Action>
    /** Which calls raise. */
    const refuses: Action -> bool

    constructor (refuses: Action -> bool)
      ensures trace == [] && this.refuses == refuses
    {
      trace := [];
      this.refuses := refuses;
    }

    /** Makes one call: `ok` is false when it raises. */
    method Perform(a: Action) returns (ok: bool)
      modifies this
      ensures ok == !refuses(a)
      ensures trace == if ok then old(trace) + [a] else old(trace)
    {
      ok := !refuses(a);
      if ok {
        trace := trace + [a];
      }
    }

    /** `send_complaint_response(email_id, response)` */
    method SendComplaintResponse(emailId: string, response: Option<string>) returns (ok: bool)
      modifies this
      ensures var a := Action.SendComplaintResponse(emailId, response);
        ok == !refuses(a) && trace == if ok then old(trace) + [a] else old(trace)
    {
      ok := Perform(Action.SendComplaintResponse(emailId, response));
    }

    /** `send_standard_response(email_id, response)` */
    method SendStandardResponse(emailId: string, response: Option<string>) returns (ok: bool)
      modifies this
      ensures var a := Action.SendStandardResponse(emailId, response);
        ok == !refuses(a) && trace == if ok then old(trace) + [a] else old(trace)
    {
      ok := Perform(Action.SendStandardResponse(emailId, response));
    }

    /** `create_urgent_ticket(email_id, category, context)` */
    method CreateUrgentTicket(emailId: string, category: string, context: string) returns (ok: bool)
      modifies this
      ensures var a := Action.CreateUrgentTicket(emailId, category, context);
        ok == !refuses(a) && trace == if ok then old(trace) + [a] else old(trace)
    {
      ok := Perform(Action.CreateUrgentTicket(emailId, category, context));
    }

    /** `create_support_ticket(email_id, context)` */
    method CreateSupportTicket(emailId: string, context: string) returns (ok: bool)
      modifies this
      ensures var a := Action.CreateSupportTicket(emailId, context);
        ok == !refuses(a) && trace == if ok then old(trace) + [a] else old(trace)
    {
      ok := Perform(Action.CreateSupportTicket(emailId, context));
    }

    /** `log_customer_feedback(email_id, feedback)` */
    method LogCustomerFeedback(emailId: string, feedback: string) returns (ok: bool)
      modifies this
      ensures var a := Action.LogCustomerFeedback(emailId, feedback);
        ok == !refuses(a) && trace == if ok then old(trace) + [a] else old(trace)
    {
      ok := Perform(Action.LogCustomerFeedback(emailId, feedback));
    }
  }
}
