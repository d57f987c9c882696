/** The local handler: it wires an income manager, which renders the smoke-test
    message, to an outcome manager, which posts messages to Slack and reports
    errors there, and runs the pipeline once. */
module Handler {
  import opened Wrappers
  import opened Delivery
  import IncomeMessage

  /** The income side as the handler sees it: ToDummyPayload's buffer and
      error, fixed when the manager is made. */
  class IncomeManager {
    const buf: Option<string>
    const err: Option<string>

    constructor (buf: Option<string>, err: Option<string>)
      ensures this.buf == buf && this.err == err
    {
      this.buf, this.err := buf, err;
    }

    method ToDummyPayload() returns (b: Option<string>, e: Option<string>)
      ensures b == buf && e == err
    {
      b, e := buf, err;
    }
  }

  /** A manager whose smoke-test message is the current revision's dummy
      document, rendered without error. */
  predicate GitHubIncome(m: IncomeManager) {
    m.buf == IncomeMessage.DummyDocument && m.err == None
  }

  /** income.NewManager when the income type is configured as GitHub: a
      manager whose smoke-test message is the current revision's dummy
      document. */
  method NewIncomeManager() returns (m: IncomeManager)
    ensures fresh(m) && GitHubIncome(m)
  {
    var message := new IncomeMessage.GitHubMessage();
    var b, e := message.ToDummyPayload();
    m := new IncomeManager(b, e);
  }

  /** What a Send comes to, given the exchange the network answers it with:
      None when the post panics, otherwise the error Send returns. */
  function SendOutcome(exchange: Exchange): (r: Option<Option<string>>)
    ensures r.None? <==> exchange.NoResponse?
    ensures r == Some(None) <==> exchange.Got? && exchange.response.statusCode == 200
    ensures exchange.Errored? ==> r == Some(Some(exchange.err))
    ensures exchange.Got? && exchange.response.statusCode != 200 ==>
      r == Some(Some(ErrorText(exchange.response)))
  {
    match Post(exchange)
    case PostPanicked => None
    case Posted(_) => Some(None)
    case PostFailed(e) => Some(Some(e))
  }

  /** The outcome side. `network` stands for the Slack webhook: the exchange a
      post of a given buffer gets. `sent` lists the buffers passed to Send,
      `reported` the arguments of ReportErrorIf, `reports` the error texts it
      posted. */
  class OutcomeManager {
    const network: Option<string> -> Exchange
    var sent: seq<Option<string>>
    var reported: seq<Option<string>>
    var reports: seq<string>

    constructor (network: Option<string> -> Exchange)
      ensures this.network == network && sent == [] && reported == [] && reports == []
    {
      this.network := network;
      sent, reported, reports := [], [], [];
    }

    /** Posts the buffer and returns the post's error; `panicked` says the
        post panicked instead of returning. */
    method Send(msg: Option<string>) returns (e: Option<string>, panicked: bool)
      modifies this
      ensures panicked <==> SendOutcome(network(msg)).None?
      ensures !panicked ==> e == SendOutcome(network(msg)).value
      ensures sent == old(sent) + [msg] && reported == old(reported) && reports == old(reports)
    {
      sent := sent + [msg];
      var outcome := SendOutcome(network(msg));
      panicked := outcome.None?;
      e := if panicked then None else outcome.value;
    }

    /** Without an error, does nothing and returns nil; with one, posts it as
        an error report and returns it, whether or not that post succeeds. */
    method ReportErrorIf(e: Option<string>) returns (r: Option<string>)
      modifies this
      ensures r == e
      ensures sent == old(sent) && reported == old(reported) + [e]
      ensures reports == old(reports) + (if e.Some? then [e.value] else [])
    {
      reported := reported + [e];
      if e.Some? {
        reports := reports + [e.value];
      }
      r := e;
    }
  }

  /** What one run posts and reports, given the income result and the network:
      the buffers sent (none when rendering failed), the errors reported (none
      when the post panicked), and whether the run panicked. */
  datatype Run = Run(sent: seq<Option<string>>, reported: seq<Option<string>>, panicked: bool)

  /** The error texts a run's reports post. */
  function ReportsOf(reported: seq<Option<string>>): seq<string> {
    if reported == [] then []
    else (if reported[0].Some? then [reported[0].value] else []) + ReportsOf(reported[1..])
  }

  function RunOf(buf: Option<string>, err: Option<string>,
                 network: Option<string> -> Exchange): (r: Run)
    ensures |r.sent| <= 1
    ensures r.sent != [] <==> err.None?
    ensures r.sent != [] ==> r.sent[0] == buf
    ensures r.panicked <==> err.None? && network(buf).NoResponse?
    ensures r.panicked <==> r.reported == []
    ensures |r.reported| <= 1
    ensures err.Some? ==> r.reported == [err]
    ensures r.reported == [None] <==> err.None? && network(buf).Got?
                                      && network(buf).response.statusCode == 200
  {
    if err.Some? then Run([], [err], false)
    else
      match SendOutcome(network(buf))
      case None => Run([buf], [], true)
      case Some(e) => Run([buf], [e], false)
  }

  /** A webhook answering with any other code has its error text reported. */
  lemma RejectedRun(buf: Option<string>, network: Option<string> -> Exchange, r: Response)
    requires network(buf) == Got(r) && r.statusCode != 200
    ensures RunOf(buf, None, network) == Run([buf], [Some(ErrorText(r))], false)
  {
  }

  /** A post that gets no response panics after sending and reports nothing. */
  lemma PanickedRun(buf: Option<string>, network: Option<string> -> Exchange)
    requires network(buf).NoResponse?
    ensures RunOf(buf, None, network) == Run([buf], [], true)
  {
  }

  class LocalHandler {
    var income: IncomeManager?
    var outcome: OutcomeManager?

    constructor ()
      ensures income == null && outcome == null
    {
      income, outcome := null, null;
    }

    /** Stores the income manager NewManager returned (nil with an error);
        on an error returns it and leaves the outcome manager as it was,
        otherwise stores a fresh outcome manager. */
    method Init(made: IncomeManager?, madeErr: Option<string>,
                network: Option<string> -> Exchange)
      returns (err: Option<string>)
      modifies this
      ensures income == made && err == madeErr
      ensures madeErr.Some? ==> outcome == old(outcome)
      ensures madeErr.None? ==> outcome != null && fresh(outcome) && outcome.network == network
                                && outcome.sent == [] && outcome.reported == [] && outcome.reports == []
    {
      income := made;
      if madeErr.Some? {
        return madeErr;
      }
      outcome := new OutcomeManager(network);
      err := None;
    }

    /** With both managers present: renders the smoke-test message, sends it
        only if rendering succeeded, and reports the first error exactly once,
        unless the send panicked. With either missing, does nothing.
        `panicked` says the run ended in a panic. */
    method Start() returns (panicked: bool)
      modifies outcome
      ensures (income == null || outcome == null) && outcome != null ==>
        outcome.sent == old(outcome.sent) && outcome.reported == old(outcome.reported)
        && outcome.reports == old(outcome.reports)
      ensures (income == null || outcome == null) ==> !panicked
      ensures income != null && outcome != null ==>
        var run := RunOf(income.buf, income.err, outcome.network);
        && panicked == run.panicked
        && outcome.sent == old(outcome.sent) + run.sent
        && outcome.reported == old(outcome.reported) + run.reported
        && outcome.reports == old(outcome.reports) + ReportsOf(run.reported)
    {
      panicked := false;
      if income != null && outcome != null {
        var msg, err := income.ToDummyPayload();
        if err.None? {
          err, panicked := outcome.Send(msg);
          if panicked {
            return;
          }
        }
        var _ := outcome.ReportErrorIf(err);
      }
    }
  }
}
