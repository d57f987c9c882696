# ggnb: GitHub webhook notifications for Slack

ggnb receives GitHub webhook deliveries and turns each one into a Slack
attachment message. This project models the core of that pipeline:

- **Current income side.** The header and body checks and the event-type
  dispatch of `GitHubMessage` in `income/message`.
- **Field tables.** The InsertField calls each event builder makes, by event
  type and action.
- **Attachment builder** (`income/builder`). It drops empty fields and
  JSON-encodes the attachment.
- **Older revision** (`message`). It keeps all fields, splices them into a
  text template, and has a three-field `GitHubMessage` with its own payload
  checks.
- **Local handler.** It renders the smoke-test message, posts it to Slack and
  reports the first error.

github.ParseWebHook is not one of the modelled files. Every operation that parses an event takes it as a
parameter `parse`. The parsed events are datatypes with the fields the builders read. A missing
pointer is an `Option`.

Modules:

- `Wrappers`: `Option` and `Result`.
- `Json`: JSON string quoting as `encoding/json` writes it, and a reader that undoes it.
- `Wire`: the attachment document as `json.Marshal` writes it, and a reader for it.
- `AttachmentBuilder`: the attachment class and its empty-field rule.
- `GitHubEvents`: the parsed event records, and the result of classifying a delivery.
- `FieldTables`: the requests of each event builder, shared by both revisions.
- `IncomeMessage`: the current `GitHubMessage` and its build methods.
- `LegacyBuilder`: the older payload builder and its build methods.
- `LegacyMessage`: the older `GitHubMessage`.
- `Delivery`: what the Slack client makes of an HTTP exchange, a panic included.
- `Handler`: the income and outcome managers as the local handler uses them, and the handler.

Each builder is proved against its specification. Each event type has one
function in `FieldTables` that lists the fields that type's builder requests.
A class method's `ensures` ties its new state to that list. Each document
then has a reader that undoes it, and the round-trip lemmas say the reader
gives back exactly the fields and constants that went in.

The builders dispatch on the action through one method per case, such as
`IncomeMessage.InsertIssuesOpened`, and small list lemmas such as
`FieldTables.KeptFirst` serve the lemmas above them. These helpers have no rows
below. Each case method is covered by its dispatcher's row: its contract is
the part of the table for its case.

## Model

| member | source | states |
|---|---|---|
| AttachmentBuilder.GetShort | go/income/builder/builder.go:73-78 | the shortness flag is true exactly when the optional flag is given and true |
| AttachmentBuilder.Filled | go/income/builder/builder.go:31-38 | the kept fields are never more than the requested ones |
| AttachmentBuilder.FilledSnoc | go/income/builder/builder.go:31-38 | requesting one more field keeps it at the end exactly when its title and value are both non-empty |
| AttachmentBuilder.FilledMembers | go/income/builder/builder.go:31-38 | a field is kept if and only if it was requested and has a non-empty title and value |
| AttachmentBuilder.FilledAppend | go/income/builder/builder.go:31-38 | the rule applies to each request on its own, so it distributes over concatenation |
| AttachmentBuilder.FilledAllShown | go/income/builder/builder.go:31-38 | requests whose titles and values are all non-empty are kept unchanged |
| AttachmentBuilder.FilledIdempotent | go/income/builder/builder.go:31-38 | applying the rule twice is applying it once |
| AttachmentBuilder.FilledHead | go/income/builder/builder.go:31-38 | a non-empty first request stays first |
| AttachmentBuilder.DocumentRoundTrip | go/income/builder/builder.go:40-55 | the marshalled attachment reads back as the constants and the kept fields |
| AttachmentBuilder.ErrorAttachment | go/income/builder/builder.go:66-71 | the error attachment has the error colour, the fixed constants, and one unshort "エラー" field for a non-empty error, none for an empty one |
| AttachmentBuilder.ErrorDocumentRoundTrip | go/income/builder/builder.go:66-71 | the error document reads back with the error colour and the single error field |
| AttachmentBuilder.Attachment.constructor | go/income/builder/builder.go:57-64 | a new attachment has the default colour, fallback, title link and title and no fields |
| AttachmentBuilder.Attachment.InsertField | go/income/builder/builder.go:31-38 | appends the field exactly when its title and value are non-empty, leaves the constants alone, and keeps the kept fields equal to the filtered requests |
| AttachmentBuilder.Attachment.Build | go/income/builder/builder.go:40-55 | the buffer is the JSON encoding of the attachment, with no error |
| AttachmentBuilder.BuildError | go/income/builder/builder.go:66-71 | the buffer is the encoding of the error attachment |
| Json.HexDigit | go/income/builder/builder.go:49-55 | a hex digit reads back as its value |
| Json.EscapeChar | go/income/builder/builder.go:49-55 | a character is written as itself exactly when it needs no escape |
| Json.ReadEscapedChar | go/income/builder/builder.go:49-55 | one escaped character reads back as that character, whatever follows |
| Json.ReadEscaped | go/income/builder/builder.go:49-55 | an escaped string followed by a closing quote reads back as the string and what follows |
| Json.QuoteRoundTrip | go/income/builder/builder.go:49-55 | a quoted string reads back as itself and the rest of the input |
| Json.QuoteInjective | go/income/builder/builder.go:49-55 | different strings have different quotations, even with different text after them |
| Json.EscapePlain | go/message/builder.go:52-68 | a string with no character that needs escaping is escaped as itself |
| Wire.FieldRoundTrip | go/income/builder/builder.go:17-21 | one marshalled field reads back as that field |
| Wire.ItemsRoundTrip | go/income/builder/builder.go:23-29 | a comma-separated non-empty list of fields closed by a bracket reads back as the list |
| Wire.FieldsRoundTrip | go/income/builder/builder.go:23-29 | the fields value reads back as the list, with `null` for a list that has no fields |
| Wire.CloseNotItem | go/message/builder.go:52-68 | a closing bracket where a field must follow is refused |
| Wire.DanglingComma | go/message/builder.go:40-51 | a comma after a field commits a strict reader to a further field |
| Wire.PayloadRoundTrip | go/income/builder/builder.go:40-55 | the whole attachments document reads back as its attachment |
| Wire.PayloadInjective | go/income/builder/builder.go:40-55 | different attachments give different documents |
| GitHubEvents.StatusOf | go/income/message/github_message.go:35-49 | a delivery that parsed is a success, a rejected one returns its error, and one that crashed panics |
| FieldTables.CommitText | go/income/message/github_message.go:440-448 | the loop writes each commit's seven-character link line in order, which is the push summary |
| FieldTables.CommitCommentRequests | go/income/message/github_message.go:106-119 | the table of commit_comment requests starts with the sender's account field |
| FieldTables.CreateRequests | go/income/message/github_message.go:121-135 | the table of create requests, by ref type, starts with the account field |
| FieldTables.DeleteRequests | go/income/message/github_message.go:137-151 | the table of delete requests, by ref type, starts with the account field |
| FieldTables.IssueCommentRequests | go/income/message/github_message.go:153-176 | the table of issue_comment requests, by action, starts with the account field |
| FieldTables.IssuesRequests | go/income/message/github_message.go:178-253 | the table of issues requests, by action, starts with the account field |
| FieldTables.PullRequestRequests | go/income/message/github_message.go:255-323 | the table of pull_request requests, by action, starts with the account field |
| FieldTables.PullRequestReviewRequests | go/income/message/github_message.go:325-338 | the table of pull_request_review requests starts with the account field |
| FieldTables.PullRequestReviewCommentRequests | go/income/message/github_message.go:340-363 | the table of review comment requests starts with the account field |
| FieldTables.PullRequestTargetRequests | go/income/message/github_message.go:365-433 | the table of pull_request_target requests starts with the account field |
| FieldTables.PushRequests | go/income/message/github_message.go:435-452 | the table of push requests starts with the account field |
| FieldTables.Requests | go/income/message/github_message.go:71-96 | every watched event type has a table, and only unwatched events have none |
| FieldTables.TableOf | go/income/message/github_message.go:71-96 | each event type is sent to its own builder's table |
| FieldTables.AccountFirst | go/message/builder.go:71-417 | every table's first request is the sender's account field, short |
| FieldTables.AccountFirstKept | go/income/message/github_message.go:106-452 | after the empty-field rule, the account field is still first when the sender has a login |
| FieldTables.UnmappedCommitComment | go/income/message/github_message.go:106-119 | an action other than created gives the account field and one unshort field naming the event type and action |
| FieldTables.UnmappedIssueComment | go/income/message/github_message.go:153-176 | an unmapped issue_comment action gives the account field and one field naming it |
| FieldTables.UnmappedIssues | go/income/message/github_message.go:249-250 | an unmapped issues action gives the account field and one field naming it, and no link |
| FieldTables.UnmappedPullRequest | go/income/message/github_message.go:319-320 | an unmapped pull_request action gives the account field and one field naming it |
| FieldTables.UnmappedReview | go/income/message/github_message.go:325-338 | an unmapped review action gives the account field and one field naming it |
| FieldTables.UnmappedReviewComment | go/income/message/github_message.go:340-363 | an unmapped review comment action gives the account field and one field naming it |
| FieldTables.UnknownRefType | go/income/message/github_message.go:121-151 | a ref type other than branch or tag gives the account field alone, for create and for delete |
| FieldTables.Synchronize | go/income/message/github_message.go:317-318 | synchronize gives one unshort field naming it, and no link |
| FieldTables.TargetMirrorsPullRequest | go/income/message/github_message.go:365-433 | pull_request_target gives the pull_request fields for every mapped action, and names its own type otherwise |
| FieldTables.EditedIssue | go/income/message/github_message.go:187-197 | an edited issue lists the action, the title and body changes when present, then title, body, milestone and link |
| FieldTables.EditedPullRequest | go/income/message/github_message.go:255-323 | an edited pull request, and an edited pull_request_target, have the same shape as an edited issue |
| FieldTables.EditedIssueComment | go/income/message/github_message.go:153-176 | an edited comment lists the old and new body only when the body changed |
| FieldTables.EditedReviewComment | go/income/message/github_message.go:340-363 | an edited review comment lists the old and new body only when the body changed |
| FieldTables.CommitLinesAppend | go/income/message/github_message.go:440-448 | the summary of two runs of commits is the two summaries joined |
| FieldTables.CommitLinesEmpty | go/income/message/github_message.go:440-448 | the summary is empty exactly when there are no commits |
| FieldTables.CommitLinesSingle | go/income/message/github_message.go:440-448 | one commit's summary is its line |
| FieldTables.PushCommitKept | go/income/message/github_message.go:435-452 | in the current revision, a push has a Commit field exactly when it has commits, and the field is their summary |
| FieldTables.PushCommitRequested | go/message/builder.go:400-417 | in the older revision, a push has a Commit field exactly when its commit list is present |
| IncomeMessage.ExtractGitHubEvent | go/income/message/github_message.go:60-69 | the lower-case header wins, the capitalised one is the fallback, and without either the result is the missing-header error |
| IncomeMessage.ToGitHubEvent | go/income/message/github_message.go:52-58 | a missing header rejects, a nil body crashes, and otherwise the result is what the parser makes of the event type and body |
| IncomeMessage.Classify | go/income/message/github_message.go:35-49 | headers that are not a string map and a body that is not a string pointer are rejected with their own errors, checked in that order |
| IncomeMessage.DocumentOf | go/income/message/github_message.go:71-96 | there is a document exactly when there is a table |
| IncomeMessage.PayloadOf | go/income/message/github_message.go:71-96 | a stored watched event has a document; an unwatched or missing one gives a nil buffer and nil error |
| IncomeMessage.DocumentOfReadsBack | go/income/message/github_message.go:71-104 | a table's document reads back as the constants and the kept fields |
| IncomeMessage.DummyKept | go/income/message/github_message.go:98-104 | all three smoke-test fields survive the empty-field rule |
| IncomeMessage.GitHubMessage.constructor | go/income/message/github_message.go:31-33 | a new message holds no event |
| IncomeMessage.GitHubMessage.Init | go/income/message/github_message.go:35-49 | the status is that of the classification; the event is stored only when it parsed, and otherwise the message is unchanged |
| IncomeMessage.GitHubMessage.ToPayload | go/income/message/github_message.go:71-96 | the buffer is the document of the stored event's table, with no error |
| IncomeMessage.GitHubMessage.ToDummyPayload | go/income/message/github_message.go:98-104 | the buffer is the document of the three smoke-test fields |
| IncomeMessage.InsertCommitCommentFields | go/income/message/github_message.go:106-119 | the attachment's requests are the commit_comment table and the constants are unchanged |
| IncomeMessage.BuildCommitCommentEvent | go/income/message/github_message.go:106-119 | the buffer is the document of the commit_comment table |
| IncomeMessage.InsertCreateFields | go/income/message/github_message.go:121-135 | the requests are the create table |
| IncomeMessage.BuildCreateEvent | go/income/message/github_message.go:121-135 | the buffer is the document of the create table |
| IncomeMessage.InsertDeleteFields | go/income/message/github_message.go:137-151 | the requests are the delete table |
| IncomeMessage.BuildDeleteEvent | go/income/message/github_message.go:137-151 | the buffer is the document of the delete table |
| IncomeMessage.InsertIssueCommentFields | go/income/message/github_message.go:153-176 | the requests are the issue_comment table |
| IncomeMessage.BuildIssueCommentEvent | go/income/message/github_message.go:153-176 | the buffer is the document of the issue_comment table |
| IncomeMessage.InsertIssuesFields | go/income/message/github_message.go:178-253 | the requests are the issues table for the event's action |
| IncomeMessage.BuildIssuesEvent | go/income/message/github_message.go:178-253 | the buffer is the document of the issues table |
| IncomeMessage.InsertPullRequestFields | go/income/message/github_message.go:255-323 | the requests are the pull_request table for the event's action |
| IncomeMessage.BuildPullRequestEvent | go/income/message/github_message.go:255-323 | the buffer is the document of the pull_request table |
| IncomeMessage.InsertPullRequestReviewFields | go/income/message/github_message.go:325-338 | the requests are the review table |
| IncomeMessage.BuildPullRequestReviewEvent | go/income/message/github_message.go:325-338 | the buffer is the document of the review table |
| IncomeMessage.InsertPullRequestReviewCommentFields | go/income/message/github_message.go:340-363 | the requests are the review comment table |
| IncomeMessage.BuildPullRequestReviewCommentEvent | go/income/message/github_message.go:340-363 | the buffer is the document of the review comment table |
| IncomeMessage.InsertPullRequestTargetFields | go/income/message/github_message.go:365-433 | the requests are the pull_request_target table |
| IncomeMessage.BuildPullRequestTargetEvent | go/income/message/github_message.go:365-433 | the buffer is the document of the pull_request_target table |
| IncomeMessage.InsertPushFields | go/income/message/github_message.go:435-452 | the requests are the push table, with the summary written by the commit loop |
| IncomeMessage.BuildPushEvent | go/income/message/github_message.go:435-452 | the buffer is the document of the push table |
| LegacyBuilder.TrailingComma | go/message/builder.go:40-51 | a non-empty section ends in a comma |
| LegacyBuilder.SectionSnoc | go/message/builder.go:40-51 | writing one more field extends the section by that field's object and a comma |
| LegacyBuilder.SectionRoundTrip | go/message/builder.go:38-69 | the section reads back as the fields that were written |
| LegacyBuilder.LegacyRoundTrip | go/message/builder.go:38-69 | the whole legacy document reads back as its fields |
| LegacyBuilder.LegacyInjective | go/message/builder.go:38-69 | different field lists give different documents |
| LegacyBuilder.TrailingCommaRejected | go/message/builder.go:38-69 | a strict JSON array reader refuses the bracketed list of any non-empty section |
| LegacyBuilder.JoinedRoundTrip | go/message/builder.go:38-69 | the comma-separated list, with nothing after the last field, reads back under the strict reader as its fields |
| LegacyBuilder.LegacyDocumentRejected | go/message/builder.go:38-69 | after the template's opening text, the strict reader refuses the list of every document Build writes for a non-empty field list |
| LegacyBuilder.JoinedDocumentReadsBack | go/message/builder.go:38-69 | after the same opening text, the strict reader takes the list of the corrected document back as its fields, with the closing text left over |
| LegacyBuilder.PayloadBuilder.constructor | go/message/builder.go:20-22 | a new builder has no fields |
| LegacyBuilder.PayloadBuilder.InsertField | go/message/builder.go:31-36 | every call appends its field, empty or not |
| LegacyBuilder.PayloadBuilder.Build | go/message/builder.go:38-69 | the loop writes the section of all fields, and the buffer is the template with the section spliced in |
| LegacyBuilder.InsertCommitCommentFields | go/message/builder.go:71-84 | the builder's fields are the commit_comment table |
| LegacyBuilder.BuildCommitCommentEvent | go/message/builder.go:71-84 | the buffer is the legacy document of the commit_comment table |
| LegacyBuilder.InsertCreateFields | go/message/builder.go:86-100 | the fields are the create table |
| LegacyBuilder.BuildCreateEvent | go/message/builder.go:86-100 | the buffer is the legacy document of the create table |
| LegacyBuilder.InsertDeleteFields | go/message/builder.go:102-116 | the fields are the delete table |
| LegacyBuilder.BuildDeleteEvent | go/message/builder.go:102-116 | the buffer is the legacy document of the delete table |
| LegacyBuilder.InsertIssueCommentFields | go/message/builder.go:118-141 | the fields are the issue_comment table |
| LegacyBuilder.BuildIssueCommentEvent | go/message/builder.go:118-141 | the buffer is the legacy document of the issue_comment table |
| LegacyBuilder.InsertIssuesFields | go/message/builder.go:143-218 | the fields are the issues table |
| LegacyBuilder.BuildIssuesEvent | go/message/builder.go:143-218 | the buffer is the legacy document of the issues table |
| LegacyBuilder.InsertPullRequestFields | go/message/builder.go:220-288 | the fields are the pull_request table |
| LegacyBuilder.BuildPullRequestEvent | go/message/builder.go:220-288 | the buffer is the legacy document of the pull_request table |
| LegacyBuilder.InsertPullRequestReviewFields | go/message/builder.go:290-303 | the fields are the review table |
| LegacyBuilder.BuildPullRequestReviewEvent | go/message/builder.go:290-303 | the buffer is the legacy document of the review table |
| LegacyBuilder.InsertPullRequestReviewCommentFields | go/message/builder.go:305-328 | the fields are the review comment table |
| LegacyBuilder.BuildPullRequestReviewCommentEvent | go/message/builder.go:305-328 | the buffer is the legacy document of the review comment table |
| LegacyBuilder.InsertPullRequestTargetFields | go/message/builder.go:330-398 | the fields are the pull_request_target table |
| LegacyBuilder.BuildPullRequestTargetEvent | go/message/builder.go:330-398 | the buffer is the legacy document of the pull_request_target table |
| LegacyBuilder.InsertPushFields | go/message/builder.go:400-417 | the fields are the push table |
| LegacyBuilder.BuildPushEvent | go/message/builder.go:400-417 | the buffer is the legacy document of the push table |
| LegacyBuilder.LegacyAccountFirst | go/message/builder.go:71-417 | every legacy document reads back with the account field first |
| LegacyMessage.ToGitHubEvent | go/message/github.go:22-39 | a non-map payload or headers value crashes; missing headers, a missing header key and a missing body are rejected with their own messages, in that order; a non-string event type or body crashes; and otherwise the result is what the parser makes of them |
| LegacyMessage.AgreesWithCurrent | go/message/github.go:22-39 | with the lower-case header present, the older check classifies a delivery exactly as the current one does |
| LegacyMessage.LowerCaseOnly | go/message/github.go:29-32 | the older check rejects a delivery with only the capitalised header, which the current one accepts |
| LegacyMessage.InitStatus | go/message/github.go:41-92 | a parsed event succeeds unless reading its sender or body dereferences nil; otherwise the status is that of the classification |
| LegacyMessage.QuotedCardRoundTrip | go/message/github.go:98-132 | a card whose three values are JSON-quoted reads back as those values |
| LegacyMessage.PlainCardReadsBack | go/message/github.go:98-132 | a card whose values need no escaping reads back as those values |
| LegacyMessage.CardUnreadable | go/message/github.go:98-132 | a card whose body is a newline is not a readable document |
| LegacyMessage.GitHubMessage.constructor | go/message/github.go:15-20 | a new message has no sender, an empty action, no body and is not a target |
| LegacyMessage.GitHubMessage.Init | go/message/github.go:41-92 | the status follows the classification; on success the target flag says whether the type is watched, and the sender, action and body are the event's |
| LegacyMessage.GitHubMessage.ToPayload | go/message/github.go:98-132 | there is a card exactly when the sender and body are set, and with plain values it reads back as the sender, action and body |
| LegacyMessage.GitHubMessage.QuotedPayload | go/message/github.go:98-132 | the quoted card always reads back as the sender, action and body |
| LegacyMessage.DummyReadsBack | go/message/github.go:134-167 | the smoke-test card reads back as bot, test and good |
| Delivery.Decimal | go/outcome/client/client.go:63-66 | the digits of a number have no leading zero |
| Delivery.DecimalRoundTrip | go/outcome/client/client.go:63-66 | the digits of a natural number read back as that number |
| Delivery.IntTextRoundTrip | go/outcome/client/client.go:63-66 | the status code in the error text reads back as the code, negatives included |
| Delivery.PostResult | go/outcome/client/client.go:63-72 | a response succeeds with its body exactly when its code is 200, and otherwise fails with the status, code and body |
| Delivery.Post | go/outcome/client/client.go:44-73 | an exchange with no response panics, at the nil request or response the client dereferences before checking the error; an error that comes with a response, or from reading its body, is returned as it is; otherwise the result is that of the response |
| Delivery.ErrorTextShowsCode | go/outcome/client/client.go:63-72 | responses that differ only in their code have different error texts |
| Handler.IncomeManager.ToDummyPayload | go/income/income.go:36-42 | returns the buffer and error the manager was made with |
| Handler.NewIncomeManager | go/income/income.go:17-23 | a GitHub income manager's smoke-test buffer is the current revision's dummy document, with no error |
| Handler.SendOutcome | go/outcome/client/client.go:44-73 | a send panics exactly when the exchange got no response; it returns no error exactly when the response's code is 200, and otherwise returns the exchange's error or the response's error text |
| Handler.OutcomeManager.constructor | go/handler/local_handler.go:22 | a new outcome manager has sent and reported nothing |
| Handler.OutcomeManager.Send | go/outcome/outcome_test.go:29-53 | the buffer is posted, and the post either panics or returns its error |
| Handler.OutcomeManager.ReportErrorIf | go/outcome/outcome_test.go:56-80 | returns its argument; posts an error report only when there is an error |
| Handler.RunOf | go/handler/local_handler.go:26-34 | at most one buffer is sent, exactly when rendering succeeded; the run panics exactly when that post got no response, and then reports nothing; otherwise one error is reported, the rendering error if there was one, and none exactly when the post got a 200 |
| Handler.RejectedRun | go/handler/handler_test.go:118-151 | a webhook answering with another code has the buffer sent and the error text reported |
| Handler.PanickedRun | go/outcome/client/client.go:51-56 | a post that gets no response panics the run after the buffer is sent, with nothing reported |
| Handler.LocalHandler.constructor | go/handler/local_handler.go:10-13 | a new handler has neither manager |
| Handler.LocalHandler.Init | go/handler/local_handler.go:15-24 | the income manager is stored; on an error that error is returned and the outcome manager is left alone, otherwise a fresh one is stored |
| Handler.LocalHandler.Start | go/handler/local_handler.go:26-34 | with both managers the logs grow by one run and the panic flag is the run's, and with either missing nothing happens |

## Left out

- github.ParseWebHook is a function parameter. Event records carry only the fields the builders read.
- The error branches after `json.Marshal` and `strings.Builder` writes are not modelled. Marshalling strings and booleans cannot fail, so every build's error is nil.
- HTTP, the transport and reading the response body are not modelled. A post's outcome is the `Exchange` the network parameter returns: no response, an error, or a response.
- A panic is not modelled as an abort. `Delivery.Post` gives `PostPanicked`, and `Handler.LocalHandler.Start` returns a flag and stops the run there.
- The empty-webhook-URL check of the Slack client is not modelled: outcome.NewManager is not part of this model.
- Environment configuration is not modelled.
  - `Handler.NewIncomeManager` is the GitHub configuration of income.NewManager.
  - `Handler.LocalHandler.Init` takes the manager and error income.NewManager returned.
- Handler.OutcomeManager.ReportErrorIf: the rendering of the error report is not modelled. The manager's source is not part of this model, so its contract follows the outcome tests. `reports` records the error texts. The report's own post is not modelled, so a report whose post would panic is taken to return normally.
- The lambda handler and main.go are not modelled.
- Commit ids are taken to be ASCII (hex SHAs). For them, the seven bytes Go slices and the seven characters the model takes agree. An id shorter than seven bytes panics in Go, and the model's type excludes ids shorter than seven characters. Non-ASCII ids are not modelled: Go slices their bytes, and may cut a character in two.
- In the older revision, a failed type assertion is not modelled as a panic. It gives the `Crashed` classification, and `Panicked` status when Init dereferences a nil sender or body.
- LegacyMessage.GitHubMessage.ToPayload: a nil sender or body gives `None`, not a nil-pointer panic. Its readback is stated for values that need no escaping.
- LegacyMessage.GitHubMessage.NeedToDeliver returns the target flag and carries no contract. Init's contract says what the flag is.
- LegacyMessage.GitHubMessage.ToDummyPayload carries no contract of its own. LegacyMessage.DummyReadsBack states what it writes.
- The `Json` reader accepts only what the encoder writes, not every JSON document. Only its agreement with the encoder is proved.
- Go's fmt.Println output is not modelled.

## Findings

| source | as written | input that shows it | evidently intended | confidence | as-written member | corrected member |
|---|---|---|---|---|---|---|
| go/message/github.go:98-132 | the sender, action and body are spliced raw between quotes with `%s` | a comment body containing a newline or a double quote | JSON-quote each value, so that the card is a valid document for any text | not executed | LegacyMessage.CardUnreadable | LegacyMessage.QuotedCardRoundTrip |
| go/message/builder.go:38-69 | every field object is followed by a comma, so the list ends with `,]` | any event, since every table has the account field | separate the field objects with commas and put nothing after the last | not executed | LegacyBuilder.LegacyDocumentRejected | LegacyBuilder.JoinedDocumentReadsBack |
