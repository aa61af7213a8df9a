/**
 * The loop of `run_demonstration` that processes a batch of emails and collects
 * one summary row per email.
 */
module Demonstration {
  import opened Wrappers
  import opened Classifier
  import opened Actions
  import opened Automation

  /** The calls `calls(e)` of each email `e` of `emails`, one email after another. */
  function Gather(emails: seq<Email>, calls: Email -> seq<Action>): seq<Action> {
    if emails == [] then [] else Gather(emails[..|emails| - 1], calls) + calls(emails[|emails| - 1])
  }

  /** The service calls that take effect while processing `emails` in order. */
  function BatchActions(emails: seq<Email>, llm: Prompt -> ApiReply, refuses: Action -> bool): (acts: seq<Action>)
    ensures |acts| <= 2 * |emails|
  {
    var calls := e => ExpectedOutcome(e, llm, refuses).actions;
    EveryOutcomeActions(llm, refuses);
    GatherBounded(emails, calls);
    Gather(emails, calls)
  }

  /** Each email's processing makes at most two calls, all about that email. */
  lemma EveryOutcomeActions(llm: Prompt -> ApiReply, refuses: Action -> bool)
    ensures forall e :: |ExpectedOutcome(e, llm, refuses).actions| <= 2
    ensures forall e, a :: a in ExpectedOutcome(e, llm, refuses).actions ==> a.emailId == IdOf(e)
  {
    forall e {
      OutcomeActions(e, llm, refuses);
    }
  }

  /** One more email processed: its calls follow those of the emails before it. */
  lemma {:induction false} GatherStep(emails: seq<Email>, i: nat, calls: Email -> seq<Action>,
                                      start: seq<Action>, trace: seq<Action>)
    requires i < |emails|
    requires trace == start + Gather(emails[..i], calls) + calls(emails[i])
    ensures trace == start + Gather(emails[..i + 1], calls)
  {
    assert emails[..i + 1][..i] == emails[..i];
    assert emails[..i + 1][i] == emails[i];
  }

  /** Position of the first email without an `id` key, or the batch length. */
  function FirstMissingId(emails: seq<Email>): (k: nat)
    ensures k <= |emails|
    ensures forall j :: 0 <= j < k ==> emails[j].id.Some?
    ensures k < |emails| ==> emails[k].id.None?
  {
    if emails == [] || emails[0].id.None? then 0 else 1 + FirstMissingId(emails[1..])
  }

  /** `FirstMissingId` is the position of the first email without an id. */
  lemma {:induction false} FirstMissingIdAt(emails: seq<Email>, k: nat)
    requires k <= |emails|
    requires forall j :: 0 <= j < k ==> emails[j].id.Some?
    requires k < |emails| ==> emails[k].id.None?
    ensures FirstMissingId(emails) == k
  {
    if k > 0 {
      assert emails[0].id.Some?;
      FirstMissingIdAt(emails[1..], k - 1);
    }
  }

  /** The summary rows of `emails`, one per email, in input order. */
  function Summary(emails: seq<Email>, llm: Prompt -> ApiReply, refuses: Action -> bool): (rows: seq<Row>)
    ensures |rows| == |emails|
    ensures forall i :: 0 <= i < |emails| ==> rows[i].emailId == IdOf(emails[i])
  {
    seq(|emails|, i requires 0 <= i < |emails| => ExpectedOutcome(emails[i], llm, refuses).row)
  }

  /** One more email processed: its row follows those of the emails before it. */
  lemma SummaryStep(emails: seq<Email>, i: nat, llm: Prompt -> ApiReply, refuses: Action -> bool)
    requires i < |emails|
    ensures Summary(emails[..i + 1], llm, refuses) ==
      Summary(emails[..i], llm, refuses) + [ExpectedOutcome(emails[i], llm, refuses).row]
  {
    assert emails[..i + 1][..i] == emails[..i];
  }

  /** Each summary row carries the id of its own email, or `'0001'` when the
      email has none, and reports success exactly when its email was classified. */
  lemma SummaryRows(emails: seq<Email>, llm: Prompt -> ApiReply, refuses: Action -> bool)
    ensures |Summary(emails, llm, refuses)| == |emails|
    ensures forall i :: 0 <= i < |emails| ==>
      && Summary(emails, llm, refuses)[i].emailId == emails[i].id.GetOr("0001")
      && (Summary(emails, llm, refuses)[i].success <==> ClassifyEmail(llm(ClassifyPrompt(emails[i]))).Some?)
  {
    forall i | 0 <= i < |emails| {
      ProcessEmailRow(emails[i], llm, refuses);
    }
  }

  /** One iteration of the batch loop: `process_email` on the `i`-th email,
      whose row and calls extend those of the emails before it. */
  method ProcessNext(system: AutomationSystem, emails: seq<Email>, i: nat, ghost start: seq<Action>)
    returns (row: Row)
    requires i < |emails|
    requires system.services.trace == start + BatchActions(emails[..i], system.llm, system.services.refuses)
    modifies system.services
    ensures Summary(emails[..i + 1], system.llm, system.services.refuses) ==
      Summary(emails[..i], system.llm, system.services.refuses) + [row]
    ensures system.services.trace == start + BatchActions(emails[..i + 1], system.llm, system.services.refuses)
  {
    row := system.ProcessEmail(emails[i]);
    GatherStep(emails, i, e => ExpectedOutcome(e, system.llm, system.services.refuses).actions,
               start, system.services.trace);
    SummaryStep(emails, i, system.llm, system.services.refuses);
  }

  /** The loop as written: the log line reads `email['id']`, which raises
      `KeyError` for an email without an id. That ends `run_demonstration`
      (`None` here) after the emails before it were processed. */
  method RunDemonstration(system: AutomationSystem, emails: seq<Email>) returns (results: Option<seq<Row>>)
    modifies system.services
    ensures results.Some? <==> FirstMissingId(emails) == |emails|
    ensures results.Some? ==> results.value == Summary(emails, system.llm, system.services.refuses)
    ensures system.services.trace ==
      old(system.services.trace) + BatchActions(emails[..FirstMissingId(emails)], system.llm, system.services.refuses)
  {
    var rows: seq<Row> := [];
    var i := 0;
    while i < |emails| && emails[i].id.Some?
      invariant 0 <= i <= |emails|
      invariant forall k :: 0 <= k < i ==> emails[k].id.Some?
      invariant rows == Summary(emails[..i], system.llm, system.services.refuses)
      invariant system.services.trace ==
        old(system.services.trace) + BatchActions(emails[..i], system.llm, system.services.refuses)
    {
      var row := ProcessNext(system, emails, i, old(system.services.trace));
      rows := rows + [row];
      i := i + 1;
    }
    FirstMissingIdAt(emails, i);
    if i < |emails| {
      // `email['id']` raises here.
      return None;
    }
    assert emails[..i] == emails;
    results := Some(rows);
  }

  /** The loop as intended: every email yields its row, in input order, an
      email without an id getting `'0001'`, and no email stops the batch. */
  method RunBatch(system: AutomationSystem, emails: seq<Email>) returns (rows: seq<Row>)
    modifies system.services
    ensures rows == Summary(emails, system.llm, system.services.refuses)
    ensures system.services.trace ==
      old(system.services.trace) + BatchActions(emails, system.llm, system.services.refuses)
  {
    rows := [];
    var i := 0;
    while i < |emails|
      invariant 0 <= i <= |emails|
      invariant rows == Summary(emails[..i], system.llm, system.services.refuses)
      invariant system.services.trace ==
        old(system.services.trace) + BatchActions(emails[..i], system.llm, system.services.refuses)
    {
      var row := ProcessNext(system, emails, i, old(system.services.trace));
      rows := rows + [row];
      i := i + 1;
    }
    assert emails[..i] == emails;
  }

  /** The calls of a batch are those of each email in turn: gathering over
      `front + back` is gathering over `front`, then over `back`. */
  lemma {:induction false} GatherAppend(front: seq<Email>, back: seq<Email>, calls: Email -> seq<Action>)
    ensures Gather(front + back, calls) == Gather(front, calls) + Gather(back, calls)
    decreases |back|
  {
    if back == [] {
      assert front + back == front;
    } else {
      var n := |back|;
      assert (front + back)[..|front + back| - 1] == front + back[..n - 1];
      assert (front + back)[|front + back| - 1] == back[n - 1];
      GatherAppend(front, back[..n - 1], calls);
    }
  }

  /** Processing a batch `front + back` performs the calls of `front`, then those of `back`. */
  lemma BatchActionsAppend(front: seq<Email>, back: seq<Email>, llm: Prompt -> ApiReply, refuses: Action -> bool)
    ensures BatchActions(front + back, llm, refuses) == BatchActions(front, llm, refuses) + BatchActions(back, llm, refuses)
  {
    GatherAppend(front, back, e => ExpectedOutcome(e, llm, refuses).actions);
  }

  /** When each email gives at most two calls about itself, so does the batch. */
  lemma {:induction false} GatherBounded(emails: seq<Email>, calls: Email -> seq<Action>)
    requires forall e :: |calls(e)| <= 2
    requires forall e, a :: a in calls(e) ==> a.emailId == IdOf(e)
    ensures |Gather(emails, calls)| <= 2 * |emails|
    ensures forall a :: a in Gather(emails, calls) ==> exists e :: e in emails && a.emailId == IdOf(e)
  {
    if emails != [] {
      var front := emails[..|emails| - 1];
      var last := emails[|emails| - 1];
      GatherBounded(front, calls);
      forall a | a in Gather(emails, calls)
        ensures exists e :: e in emails && a.emailId == IdOf(e)
      {
        if a in Gather(front, calls) {
          var e :| e in front && a.emailId == IdOf(e);
          assert e in emails;
        } else {
          assert a in calls(last);
          assert last in emails;
        }
      }
    }
  }

  /** Every service call of a batch is about an email of the batch. */
  lemma BatchActionsBounded(emails: seq<Email>, llm: Prompt -> ApiReply, refuses: Action -> bool)
    ensures forall a :: a in BatchActions(emails, llm, refuses) ==>
      exists e :: e in emails && a.emailId == IdOf(e)
  {
    var calls := e => ExpectedOutcome(e, llm, refuses).actions;
    EveryOutcomeActions(llm, refuses);
    GatherBounded(emails, calls);
  }

  /** An email without an id stops the demonstration as written: with a second
      email lacking `id`, only the first is processed and no summary is
      produced, although `process_email` would have given it the id `'0001'`. */
  lemma MissingIdStopsDemonstration(first: Email, second: Email, llm: Prompt -> ApiReply, refuses: Action -> bool)
    requires first.id == Some("001") && second.id == None
    ensures FirstMissingId([first, second]) == 1
    ensures ExpectedOutcome(second, llm, refuses).row.emailId == "0001"
  {
    assert [first, second][1..] == [second];
  }
}
