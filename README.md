# Email classification and dispatch, modelled in Dafny

This project models the classify-and-dispatch pipeline of
`email_classifier_template.py`. Each customer email passes through these steps:

- **Classification.** `EmailProcessor.classify_email` sends the email to a
  text-generation service and reads back a label. The answer is stripped and
  lower-cased, then checked against the five `valid_categories`. An unknown
  label becomes `"other"`, and an exception becomes `None`.
- **Dispatch.** `EmailAutomationSystem.process_email` looks the label up in the
  `response_handlers` table and runs the selected `_handle_*` method.
- **Handling.** Each handler asks the service for a reply with
  `generate_response`, then calls a fixed sequence of mock service functions:
  send a reply, open a ticket, or log feedback. A handler never raises: any
  exception makes it return `''`.
- **Result row.** `process_email` returns the row
  `[id, 'yes' | 'no', classification, response]`.
- **Batch.** `run_demonstration` processes a list of emails one after another
  and collects the rows.

Two things the code depends on are taken as parameters:

- **The text-generation service** is a total function
  `llm: Prompt -> ApiReply`. For each request it either raises or returns a
  completion whose content may be null.
- **The service functions** are a class `Services` that appends every call that
  takes effect to a `trace`. A predicate `refuses: Action -> bool` says which
  calls raise; a call that raises records nothing.

The mock service functions in the source never raise. Calling with
`refuses = (a => false)` gives that case, and every statement here holds for any
`refuses`.

Files:

- `text.dfy`: `str.strip()` and `str.lower()` on ASCII.
- `classifier.dfy`: the email record, the two requests, label normalisation,
  `classify_email` and `generate_response`.
- `actions.dfy`: the service calls and the `Services` class.
- `automation.dfy`:
  - the handler table;
  - the calls each handler plans, as the function `Plan`;
  - the specification functions `Handle` for one handler run and
    `ExpectedOutcome` for one email;
  - the class `AutomationSystem`, whose methods do the same work step by step
    on the services.
- `demonstration.dfy`: the batch loop, both as written and as evidently
  intended.

Where the code and its documentation differ, the model follows the code:

- When generating a reply fails, the handlers still make their service calls.
  The calls that carry a reply receive `None`, and the handler returns `None`
  unless one of its calls raises, in which case it returns `''`.
- The support-request handler generates a reply but never sends it.
- An email without an `id` key stops the whole batch loop (see Findings).

## Model

| member | source | states |
|---|---|---|
| Text.LeadingSpace | email_classifier_template.py:115 | the count of leading whitespace characters: all characters before it are whitespace, and the one at it (if any) is not |
| Text.TrailingSpace | email_classifier_template.py:115 | the count of trailing whitespace characters: all characters after the cut are whitespace, and the one before it (if any) is not |
| Text.Strip | email_classifier_template.py:115 | `strip()` leaves a string with no whitespace at either end |
| Text.StripRemovesOnlySpace | email_classifier_template.py:115 | `strip()` keeps a contiguous infix of its input; everything it removes before and after that infix is whitespace |
| Text.StripEmpty | email_classifier_template.py:115 | `strip()` gives `''` exactly when the input is all whitespace |
| Text.StripStripped | email_classifier_template.py:115 | a string without whitespace at its ends is left unchanged by `strip()` |
| Text.StripIgnoresPadding | email_classifier_template.py:115 | whitespace added before and after a string does not change what `strip()` gives |
| Text.LowerChar | email_classifier_template.py:115 | lower-casing one character maps each letter A-Z to the same letter in a-z, changes no other character, leaves no upper-case letter and keeps the whitespace class |
| Text.Lower | email_classifier_template.py:115 | `lower()` keeps the length and maps each character on its own |
| Text.LowerIsLowered | email_classifier_template.py:115 | after `lower()` no upper-case letter remains |
| Text.LowerLowered | email_classifier_template.py:115 | a string without upper-case letters is left unchanged by `lower()` |
| Text.LowerKeepsStripped | email_classifier_template.py:115 | lower-casing a string without whitespace at its ends adds none |
| Text.StripLower | email_classifier_template.py:115 | stripping and lower-casing commute |
| Classifier.CanonicalForm | email_classifier_template.py:115 | the stripped, lower-cased answer has no whitespace at its ends and no upper-case letter |
| Classifier.CanonicalIdempotent | email_classifier_template.py:115 | stripping and lower-casing a second time changes nothing |
| Classifier.CanonicalIgnoresCase | email_classifier_template.py:115 | lower-casing the answer before it is read changes nothing |
| Classifier.ValidCategoriesCanonical | email_classifier_template.py:65-68 | each of the five valid categories is already stripped and lower case |
| Classifier.Normalize | email_classifier_template.py:115-120 | the label kept from any model answer is one of the five valid categories |
| Classifier.NormalizeIdempotent | email_classifier_template.py:115-117 | normalising an already-normalised label leaves it unchanged |
| Classifier.NormalizeIgnoresPadding | email_classifier_template.py:115-117 | whitespace around the model's answer does not change the label |
| Classifier.NormalizeIgnoresCase | email_classifier_template.py:115-117 | the case of the model's answer does not change the label |
| Classifier.ClassifyEmail | email_classifier_template.py:107-124 | classification is `None` exactly when the service call raised or returned null content; otherwise it is a valid category |
| Classifier.ClassifyValidAnswer | email_classifier_template.py:115-117 | an answer that is exactly a valid category is returned as that category |
| Classifier.ClassifyKnownAnswer | email_classifier_template.py:115-117 | an answer whose stripped, lower-cased form is a valid category is returned as that form |
| Classifier.ClassifyUnknownAnswer | email_classifier_template.py:116-120 | an answer whose stripped, lower-cased form is not a category gives `"other"`, not `None` |
| Classifier.PaddedCapitalisedAnswer | email_classifier_template.py:115-117 | the answer `"  Complaint\n"` is read as `"complaint"` |
| Classifier.OutOfVocabularyAnswer | email_classifier_template.py:115-120 | the answer `"SPAM"` becomes `"spam"` and is classified `"other"`, not `None` |
| Classifier.GenerateResponse | email_classifier_template.py:165-182 | the reply is the completion's content; it is `None` exactly when the call raised or the content was null |
| Actions.Completed | email_classifier_template.py:220-290 | the calls that take effect form a prefix of the planned calls in which no call raises; the planned call right after that prefix raises |
| Actions.CompletedAllIffClean | email_classifier_template.py:220-290 | every planned call takes effect exactly when none of them raises |
| Actions.CompletedStopsAtFirstFault | email_classifier_template.py:220-290 | when call `k` is the first to raise, exactly the calls before it take effect |
| Actions.Services.Perform | email_classifier_template.py:294-324 | a call that does not raise is appended to the trace; a call that raises leaves the trace unchanged and reports failure |
| Actions.Services.SendComplaintResponse | email_classifier_template.py:295-298 | `send_complaint_response(email_id, response)` is recorded with its arguments, unless it raises |
| Actions.Services.SendStandardResponse | email_classifier_template.py:301-304 | `send_standard_response(email_id, response)` is recorded with its arguments, unless it raises |
| Actions.Services.CreateUrgentTicket | email_classifier_template.py:307-310 | `create_urgent_ticket(email_id, category, context)` is recorded with its arguments, unless it raises |
| Actions.Services.CreateSupportTicket | email_classifier_template.py:313-316 | `create_support_ticket(email_id, context)` is recorded with its arguments, unless it raises |
| Actions.Services.LogCustomerFeedback | email_classifier_template.py:319-324 | `log_customer_feedback(email_id, feedback)` is recorded with its arguments, unless it raises |
| Automation.ResponseHandlersCoverCategories | email_classifier_template.py:190-196 | the handler table has a key for exactly the five valid categories, and the handler under each key generates its reply for that category |
| Automation.Route | email_classifier_template.py:211 | the lookup finds a handler exactly when the classification is not `None` and is a valid category; that handler belongs to the classification |
| Automation.RouteToHandler | email_classifier_template.py:190-196 | each handler is found under its own category |
| Automation.Plan | email_classifier_template.py:220-290 | the ordered calls of each handler: complaint sends the complaint reply then opens an urgent ticket with the body (or `'No email body'`); inquiry and other send a standard reply; feedback logs the body (or `'No feedback'`) then sends a standard reply; support-request opens a support ticket with the body (or `'No email body'`). Every plan has one or two calls, and every reply sent is the generated one |
| Automation.PlanIsAboutTheEmail | email_classifier_template.py:220-290 | every service call a handler makes carries the email's id, or `'0001'` when it has none |
| Automation.UrgentTicketOnlyForComplaint | email_classifier_template.py:220-290 | a handler opens an urgent ticket if and only if it is the complaint handler |
| Automation.ReplySentUnlessSupportRequest | email_classifier_template.py:220-290 | every handler except the support-request one sends a reply; that one only opens a support ticket with the body (or `'No email body'`) |
| Automation.Handle | email_classifier_template.py:220-290 | one handler run, the try/bare-except of each `_handle_*`: the calls that take effect are a prefix of its plan, and the result is the generated reply or `''` |
| Automation.HandlerContainment | email_classifier_template.py:220-290 | a handler never raises. If no call raises, it returns the generated reply (possibly `None`) after making all its calls. Otherwise it returns `''`, and only the calls before the first one that raised take effect |
| Automation.FaultlessRun | email_classifier_template.py:220-290 | with no failing call, a handler makes every planned call and returns the generated reply |
| Automation.HandlerActions | email_classifier_template.py:220-290 | a handler run makes at most two calls, all about its email |
| Automation.ExpectedOutcome | email_classifier_template.py:209-214 | `process_email` on one email: the row carries the email's id (or `'0001'`), reports success exactly when a classification is present, and on failure is `[id, 'no', None, '']` with no call made |
| Automation.ProcessEmailRow | email_classifier_template.py:209-214 | the row carries the email's id (or `'0001'`). It reports success exactly when classification succeeded, and then carries a valid category and the handler's result. Otherwise it is `[id, 'no', None, '']` and no call is made |
| Automation.OutcomeActions | email_classifier_template.py:209-214 | processing one email makes at most two calls, all about that email |
| Automation.RoutedOutcome | email_classifier_template.py:209-212 | when classification selects a handler, the row is `[id, 'yes', classification, handler result]` and the calls are that handler's |
| Automation.OutOfVocabularyIsOther | email_classifier_template.py:115-120 | an email whose answer is outside the vocabulary succeeds as `other`: at most one standard reply is sent and no ticket is opened |
| Automation.ComplaintScenario | email_classifier_template.py:115-232 | a complaint with no failing call sends the complaint reply, then opens an urgent ticket with the body, and reports the reply |
| Automation.AutomationSystem.HandleComplaint | email_classifier_template.py:220-234 | `_handle_complaint`: the result and the new trace are those of `Automation.Handle` for the complaint handler |
| Automation.AutomationSystem.HandleInquiry | email_classifier_template.py:236-247 | `_handle_inquiry`: the result and the new trace are those of `Automation.Handle` for the inquiry handler |
| Automation.AutomationSystem.HandleFeedback | email_classifier_template.py:251-263 | `_handle_feedback`: the result and the new trace are those of `Automation.Handle` for the feedback handler |
| Automation.AutomationSystem.HandleSupportRequest | email_classifier_template.py:266-277 | `_handle_support_request`: the result and the new trace are those of `Automation.Handle` for the support-request handler |
| Automation.AutomationSystem.HandleOther | email_classifier_template.py:279-290 | `_handle_other`: the result and the new trace are those of `Automation.Handle` for the other-category handler |
| Automation.AutomationSystem.Dispatch | email_classifier_template.py:211 | calling the handler the table selected gives the result and calls of `Automation.Handle` for it |
| Automation.AutomationSystem.ProcessEmail | email_classifier_template.py:198-214 | `process_email`: the row and the new trace are those of `Automation.ExpectedOutcome` |
| Demonstration.FirstMissingId | email_classifier_template.py:334-336 | the position of the first email without an `id` key, or the batch length when every email has one |
| Demonstration.FirstMissingIdAt | email_classifier_template.py:334-336 | that position is the only index before which every email has an id and at which the email has none |
| Demonstration.Summary | email_classifier_template.py:334-338 | the rows the loop collects: one per email, row `i` carrying email `i`'s id or `'0001'` |
| Demonstration.SummaryStep | email_classifier_template.py:337 | one more email appends exactly its own row to the rows so far |
| Demonstration.SummaryRows | email_classifier_template.py:334-338 | one row per email, in input order. Row `i` carries email `i`'s id, or `'0001'`, and reports success exactly when email `i` was classified |
| Demonstration.BatchActions | email_classifier_template.py:334-338 | the calls made while processing the emails in order: at most two per email |
| Demonstration.EveryOutcomeActions | email_classifier_template.py:209-214 | for every email, processing makes at most two calls, all about that email |
| Demonstration.GatherStep | email_classifier_template.py:334-337 | processing one more email appends its calls after those of the emails before it |
| Demonstration.ProcessNext | email_classifier_template.py:335-337 | one loop iteration appends the email's row and its calls after those of the emails before it |
| Demonstration.RunDemonstration | email_classifier_template.py:334-338 | the loop as written: it yields all rows in order exactly when every email has an `id`; otherwise it stops at the first email without one, having made the calls of the emails before it |
| Demonstration.RunBatch | email_classifier_template.py:334-338 | the loop as intended: the rows of all emails in input order, and the calls of all emails one email after another |
| Demonstration.GatherAppend | email_classifier_template.py:334-337 | the calls made for a batch `front + back` are those of `front`, then those of `back` |
| Demonstration.BatchActionsAppend | email_classifier_template.py:334-337 | processing `front + back` performs the calls of `front`, then those of `back` |
| Demonstration.GatherBounded | email_classifier_template.py:334-337 | when each email gives at most two calls about itself, the batch gives at most two per email, each about an email of the batch |
| Demonstration.BatchActionsBounded | email_classifier_template.py:334-337 | every call a batch makes is about one of its emails |
| Demonstration.MissingIdStopsDemonstration | email_classifier_template.py:335-336 | with a second email lacking `id`, the batch stops at position 1, although `process_email` would have given that email the id `'0001'` |

## Left out

- The text-generation client (`OpenAI(...)` and `chat.completions.create`) is a
  network call. It is the parameter `llm`, so the model also assumes that the
  same request always gets the same answer.
- The prompt wording and message construction are left out. A request is
  identified by the email and, for replies, the category.
- Logging, environment lookup and the bodies of the mock service functions are
  I/O. Each service function is an event appended to a trace, or a failure.
- The pandas summary table and its printing are output formatting. The rows
  are returned as a sequence.
- The sample email data set is used only as the shape of the concrete
  scenarios.
- Text.Strip and Text.Lower model Python's `str.strip()` and `str.lower()` on
  ASCII only. Unicode whitespace and case mapping are not modelled.
- The `EmailProcessor()` objects built inside `process_email` and each handler
  have no observable effect in the model. A failure while building one is not
  modelled.
- An email is a record of optional strings. A key that is present with a
  non-string or `None` value is not distinguished from an absent key.
- Classifier.ClassifyEmail: `.strip()` on a null content raises and is caught.
  That case and a raising call both give `None`; which exception it was is not
  kept.

## Findings

| source | as written | input that shows it | evidently intended | confidence | as-written member | corrected member |
|---|---|---|---|---|---|---|
| email_classifier_template.py:336 | the log line reads `email['id']`, which raises `KeyError` for an email without an `id` key and ends `run_demonstration` with no summary | a batch whose second email has no `id` key | every email is processed, and an email without an id gets the `'0001'` that `process_email` already supplies (line 212) | medium, not executed | Demonstration.RunDemonstration, Demonstration.MissingIdStopsDemonstration | Demonstration.RunBatch |
