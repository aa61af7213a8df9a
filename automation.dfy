/**
 * `EmailAutomationSystem`: the table from category to handler, the five
 * handlers, and `process_email`, which classifies one email and dispatches it.
 */
module Automation {
  import opened Wrappers
  import opened Classifier
  import opened Actions

  /** The five handler methods the table can select. */
  datatype Handler = Complaint | Inquiry | Feedback | SupportRequest | Other

  /** The classification each handler passes to `generate_response`. */
  function CategoryOf(h: Handler): string {
    match h
    case Complaint => "complaint"
    case Inquiry => "inquiry"
    case Feedback => "feedback"
    case SupportRequest => "support_request"
    case Other => "other"
  }

  /** `response_handlers`. */
  const ResponseHandlers: map<string, Handler> := map[
    "complaint" := Complaint,
    "inquiry" := Inquiry,
    "feedback" := Feedback,
    "support_request" := SupportRequest,
    "other" := Other]

  /** The table has a handler for exactly the valid categories, and the handler
      stored under a category generates its reply for that same category. */
  lemma ResponseHandlersCoverCategories()
    ensures ResponseHandlers.Keys == ValidCategories
    ensures forall c :: c in ResponseHandlers ==> CategoryOf(ResponseHandlers[c]) == c
  {
  }

  /** `response_handlers[classification]`: no handler (a `KeyError`) exactly
      when classification failed, since every classifier result is a key. */
  function Route(classification: Option<string>): (h: Option<Handler>)
    ensures h.Some? <==> classification.Some? && classification.value in ValidCategories
    ensures h.Some? ==> CategoryOf(h.value) == classification.value
  {
    ResponseHandlersCoverCategories();
    if classification.Some? && classification.value in ResponseHandlers
    then Some(ResponseHandlers[classification.value])
    else None
  }

  /** Each handler is found under its own category, and only there. */
  lemma RouteToHandler(h: Handler)
    ensures Route(Some(CategoryOf(h))) == Some(h)
  {
    assert CategoryOf(h) in ValidCategories;
    var found := Route(Some(CategoryOf(h))).value;
    assert |CategoryOf(found)| == |CategoryOf(h)|;
  }

  /** `email.get('id', '0001')` */
  function IdOf(email: Email): string {
    email.id.GetOr("0001")
  }

  /** `email.get('body', default)` */
  function BodyOr(email: Email, default: string): string {
    email.body.GetOr(default)
  }

  /** The service calls handler `h` makes for `email` once `response` has been
      generated, in the order it makes them. */
  function Plan(h: Handler, email: Email, response: Option<string>): (plan: seq<Action>)
    ensures 0 < |plan| <= 2
    ensures forall a :: a in plan && IsSend(a) ==> a.response == response
  {
    var id := IdOf(email);
    match h
    case Complaint =>
      [SendComplaintResponse(id, response), CreateUrgentTicket(id, "complaint", BodyOr(email, "No email body"))]
    case Inquiry => [SendStandardResponse(id, response)]
    case Feedback => [LogCustomerFeedback(id, BodyOr(email, "No feedback")), SendStandardResponse(id, response)]
    case SupportRequest => [CreateSupportTicket(id, BodyOr(email, "No email body"))]
    case Other => [SendStandardResponse(id, response)]
  }

  /** Every call a handler makes is about the email being handled. */
  lemma PlanIsAboutTheEmail(h: Handler, email: Email, response: Option<string>)
    ensures forall a :: a in Plan(h, email, response) ==> a.emailId == IdOf(email)
  {
  }

  /** Only the complaint handler opens an urgent ticket. */
  lemma UrgentTicketOnlyForComplaint(h: Handler, email: Email, response: Option<string>)
    ensures (exists a :: a in Plan(h, email, response) && a.CreateUrgentTicket?) <==> h == Complaint
  {
    var plan := Plan(h, email, response);
    if h == Complaint {
      assert plan[1].CreateUrgentTicket?;
    }
  }

  /** Every handler except the support-request one sends the customer a reply;
      that one only opens a support ticket. */
  lemma ReplySentUnlessSupportRequest(h: Handler, email: Email, response: Option<string>)
    ensures (exists a :: a in Plan(h, email, response) && IsSend(a)) <==> h != SupportRequest
    ensures h == SupportRequest ==> Plan(h, email, response) == [CreateSupportTicket(IdOf(email), BodyOr(email, "No email body"))]
  {
    var plan := Plan(h, email, response);
    if h == Feedback {
      assert IsSend(plan[1]);
    } else if h != SupportRequest {
      assert IsSend(plan[0]);
    }
  }

  /** What one handler call returns and which service calls take effect. */
  datatype HandlerRun = HandlerRun(result: Option<string>, performed: seq<Action>)

  /** The reply handler `h` generates for `email`. */
  function ResponseFor(h: Handler, email: Email, llm: Prompt -> ApiReply): Option<string> {
    GenerateResponse(llm(ReplyPrompt(email, CategoryOf(h))))
  }

  /** Handler `h` on `email`: generate the reply, make the plan's calls until one
      raises; return the reply when none raised and `''` otherwise. */
  function Handle(h: Handler, email: Email, llm: Prompt -> ApiReply, refuses: Action -> bool): (run: HandlerRun)
    ensures run.performed <= Plan(h, email, ResponseFor(h, email, llm))
    ensures run.result == ResponseFor(h, email, llm) || run.result == Some("")
  {
    var response := ResponseFor(h, email, llm);
    var plan := Plan(h, email, response);
    HandlerRun(if Clean(plan, refuses) then response else Some(""), Completed(plan, refuses))
  }

  /** A handler never raises: with no failing call it returns the generated
      reply (which is `None` when generation failed) after making all its
      calls; otherwise it returns `''` and no call after the first failing one
      takes effect. */
  lemma HandlerContainment(h: Handler, email: Email, llm: Prompt -> ApiReply, refuses: Action -> bool)
    ensures var response := ResponseFor(h, email, llm);
      var plan := Plan(h, email, response);
      var run := Handle(h, email, llm, refuses);
      && (Clean(plan, refuses) ==> run.result == response && run.performed == plan)
      && (!Clean(plan, refuses) ==>
            && run.result == Some("")
            && exists k :: 0 <= k < |plan| && Clean(plan[..k], refuses) && refuses(plan[k]) && run.performed == plan[..k])
  {
    var response := ResponseFor(h, email, llm);
    var plan := Plan(h, email, response);
    CompletedAllIffClean(plan, refuses);
    var done := Completed(plan, refuses);
    if !Clean(plan, refuses) {
      assert refuses(plan[|done|]) && done == plan[..|done|];
    }
  }

  /** One row of the summary: `[id, 'yes' | 'no', classification, response]`. */
  datatype Row = Row(emailId: string, success: bool, classification: Option<string>, response: Option<string>)

  /** The row `process_email` returns and the service calls that take effect. */
  datatype Outcome = Outcome(row: Row, actions: seq<Action>)

  /** `process_email` on `email`: classify, look the handler up, run it; a failed
      classification has no handler and yields `[id, 'no', None, '']`. */
  function ExpectedOutcome(email: Email, llm: Prompt -> ApiReply, refuses: Action -> bool): (o: Outcome)
    ensures o.row.emailId == IdOf(email)
    ensures o.row.success <==> o.row.classification.Some?
    ensures !o.row.success ==> o.row.response == Some("") && o.actions == []
  {
    var classification := ClassifyEmail(llm(ClassifyPrompt(email)));
    match Route(classification)
    case None => Outcome(Row(IdOf(email), false, classification, Some("")), [])
    case Some(h) =>
      var run := Handle(h, email, llm, refuses);
      Outcome(Row(IdOf(email), true, classification, run.result), run.performed)
  }

  /** The row's shape: the email's id (or `'0001'`); success exactly when
      classification did not fail, and then a valid category and the calls of
      that category's handler; otherwise `[id, 'no', None, '']` and no call. */
  lemma ProcessEmailRow(email: Email, llm: Prompt -> ApiReply, refuses: Action -> bool)
    ensures var o := ExpectedOutcome(email, llm, refuses);
      var classification := ClassifyEmail(llm(ClassifyPrompt(email)));
      && o.row.emailId == IdOf(email)
      && (o.row.success <==> classification.Some?)
      && (o.row.success ==>
            && o.row.classification == classification
            && classification.value in ValidCategories
            && (var h := ResponseHandlers[classification.value];
                && o.row.response == Handle(h, email, llm, refuses).result
                && o.actions <= Plan(h, email, ResponseFor(h, email, llm))))
      && (!o.row.success ==> o.row == Row(IdOf(email), false, None, Some("")) && o.actions == [])
  {
    ResponseHandlersCoverCategories();
  }

  /** A handler run makes at most two service calls, all about its email. */
  lemma HandlerActions(h: Handler, email: Email, llm: Prompt -> ApiReply, refuses: Action -> bool)
    ensures var run := Handle(h, email, llm, refuses);
      |run.performed| <= 2 && forall a :: a in run.performed ==> a.emailId == IdOf(email)
  {
    PlanIsAboutTheEmail(h, email, ResponseFor(h, email, llm));
  }

  /** Processing one email makes at most two service calls, all about that email. */
  lemma OutcomeActions(email: Email, llm: Prompt -> ApiReply, refuses: Action -> bool)
    ensures var o := ExpectedOutcome(email, llm, refuses);
      |o.actions| <= 2 && forall a :: a in o.actions ==> a.emailId == IdOf(email)
  {
    var c := ClassifyEmail(llm(ClassifyPrompt(email)));
    if Route(c).Some? {
      HandlerActions(Route(c).value, email, llm, refuses);
    }
  }

  /** The outcome of an email whose classification routes to handler `h`. */
  lemma RoutedOutcome(email: Email, llm: Prompt -> ApiReply, refuses: Action -> bool, category: string, h: Handler)
    requires ClassifyEmail(llm(ClassifyPrompt(email))) == Some(category)
    requires Route(Some(category)) == Some(h)
    ensures ExpectedOutcome(email, llm, refuses) ==
      Outcome(Row(IdOf(email), true, Some(category), Handle(h, email, llm, refuses).result),
              Handle(h, email, llm, refuses).performed)
  {
  }

  /** An email whose classifier answer is out of vocabulary (such as `"SPAM"`)
      is handled as `other`, as a success: one standard reply at most, never
      an urgent ticket. */
  lemma OutOfVocabularyIsOther(email: Email, llm: Prompt -> ApiReply, refuses: Action -> bool, raw: string)
    requires llm(ClassifyPrompt(email)) == Returned(Some(raw))
    requires Canonical(raw) !in ValidCategories
    ensures var o := ExpectedOutcome(email, llm, refuses);
      && o.row.success && o.row.classification == Some("other")
      && o.actions <= [SendStandardResponse(IdOf(email), ResponseFor(Other, email, llm))]
  {
    ClassifyUnknownAnswer(raw);
    RouteToHandler(Other);
    RoutedOutcome(email, llm, refuses, "other", Other);
  }

  /** When no service call fails, a handler makes every call of its plan and
      returns the generated reply. */
  lemma FaultlessRun(h: Handler, email: Email, llm: Prompt -> ApiReply, refuses: Action -> bool)
    requires forall a :: !refuses(a)
    ensures var response := ResponseFor(h, email, llm);
      Handle(h, email, llm, refuses) == HandlerRun(response, Plan(h, email, response))
  {
    var plan := Plan(h, email, ResponseFor(h, email, llm));
    CompletedAllIffClean(plan, refuses);
  }

  /** A complaint whose calls all succeed: the complaint reply is sent, then an
      urgent ticket is opened, and the row carries the generated reply. */
  lemma ComplaintScenario(email: Email, llm: Prompt -> ApiReply, refuses: Action -> bool, reply: string)
    requires email.id == Some("010") && email.body == Some("This is broken, refund me")
    requires llm(ClassifyPrompt(email)) == Returned(Some("complaint"))
    requires llm(ReplyPrompt(email, "complaint")) == Returned(Some(reply))
    requires forall a :: !refuses(a)
    ensures ExpectedOutcome(email, llm, refuses) == Outcome(
      Row("010", true, Some("complaint"), Some(reply)),
      [SendComplaintResponse("010", Some(reply)), CreateUrgentTicket("010", "complaint", "This is broken, refund me")])
  {
    ClassifyValidAnswer("complaint");
    RouteToHandler(Complaint);
    RoutedOutcome(email, llm, refuses, "complaint", Complaint);
    FaultlessRun(Complaint, email, llm, refuses);
  }

  /** The system: the text-generation client shared by all calls and the services. */
  class AutomationSystem {
    const llm: Prompt -> ApiReply
    const services: Services

    constructor (llm: Prompt -> ApiReply, services: Services)
      ensures this.llm == llm && this.services == services
    {
      this.llm := llm;
      this.services := services;
    }

    /** `_handle_complaint` */
    method HandleComplaint(email: Email) returns (result: Option<string>)
      modifies services
      ensures var run := Handle(Complaint, email, llm, services.refuses);
        result == run.result && services.trace == old(services.trace) + run.performed
    {
      var response := GenerateResponse(llm(ReplyPrompt(email, "complaint")));
      ghost var plan := Plan(Complaint, email, response);
      var ok := services.SendComplaintResponse(IdOf(email), response);
      if !ok {
        return Some("");
      }
      ok := services.CreateUrgentTicket(IdOf(email), "complaint", BodyOr(email, "No email body"));
      if !ok {
        assert Completed(plan, services.refuses) == [plan[0]];
        return Some("");
      }
      assert Completed(plan, services.refuses) == plan;
      result := response;
    }

    /** `_handle_inquiry` */
    method HandleInquiry(email: Email) returns (result: Option<string>)
      modifies services
      ensures var run := Handle(Inquiry, email, llm, services.refuses);
        result == run.result && services.trace == old(services.trace) + run.performed
    {
      var response := GenerateResponse(llm(ReplyPrompt(email, "inquiry")));
      ghost var plan := Plan(Inquiry, email, response);
      var ok := services.SendStandardResponse(IdOf(email), response);
      if !ok {
        return Some("");
      }
      assert Completed(plan, services.refuses) == plan;
      result := response;
    }

    /** `_handle_feedback` */
    method HandleFeedback(email: Email) returns (result: Option<string>)
      modifies services
      ensures var run := Handle(Feedback, email, llm, services.refuses);
        result == run.result && services.trace == old(services.trace) + run.performed
    {
      var response := GenerateResponse(llm(ReplyPrompt(email, "feedback")));
      ghost var plan := Plan(Feedback, email, response);
      var ok := services.LogCustomerFeedback(IdOf(email), BodyOr(email, "No feedback"));
      if !ok {
        return Some("");
      }
      ok := services.SendStandardResponse(IdOf(email), response);
      if !ok {
        assert Completed(plan, services.refuses) == [plan[0]];
        return Some("");
      }
      assert Completed(plan, services.refuses) == plan;
      result := response;
    }

    /** `_handle_support_request`: generates a reply but only opens a ticket. */
    method HandleSupportRequest(email: Email) returns (result: Option<string>)
      modifies services
      ensures var run := Handle(SupportRequest, email, llm, services.refuses);
        result == run.result && services.trace == old(services.trace) + run.performed
    {
      var response := GenerateResponse(llm(ReplyPrompt(email, "support_request")));
      ghost var plan := Plan(SupportRequest, email, response);
      var ok := services.CreateSupportTicket(IdOf(email), BodyOr(email, "No email body"));
      if !ok {
        return Some("");
      }
      assert Completed(plan, services.refuses) == plan;
      result := response;
    }

    /** `_handle_other` */
    method HandleOther(email: Email) returns (result: Option<string>)
      modifies services
      ensures var run := Handle(Other, email, llm, services.refuses);
        result == run.result && services.trace == old(services.trace) + run.performed
    {
      var response := GenerateResponse(llm(ReplyPrompt(email, "other")));
      ghost var plan := Plan(Other, email, response);
      var ok := services.SendStandardResponse(IdOf(email), response);
      if !ok {
        return Some("");
      }
      assert Completed(plan, services.refuses) == plan;
      result := response;
    }

    /** Calls the handler method the table selected. */
    method Dispatch(h: Handler, email: Email) returns (result: Option<string>)
      modifies services
      ensures var run := Handle(h, email, llm, services.refuses);
        result == run.result && services.trace == old(services.trace) + run.performed
    {
      match h
      case Complaint => result := HandleComplaint(email);
      case Inquiry => result := HandleInquiry(email);
      case Feedback => result := HandleFeedback(email);
      case SupportRequest => result := HandleSupportRequest(email);
      case Other => result := HandleOther(email);
    }

    /** `process_email` */
    method ProcessEmail(email: Email) returns (row: Row)
      modifies services
      ensures var o := ExpectedOutcome(email, llm, services.refuses);
        row == o.row && services.trace == old(services.trace) + o.actions
    {
      var classification := ClassifyEmail(llm(ClassifyPrompt(email)));
      var handler := Route(classification);
      if handler.None? {
        return Row(IdOf(email), false, classification, Some(""));
      }
      var response := Dispatch(handler.value, email);
      row := Row(IdOf(email), true, classification, response);
    }
  }
}
