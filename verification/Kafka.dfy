/** Messages as libs/go/kafka hands them to the services. */
module Kafka {
  import opened GitHubSource
  import opened Prelude

  /** A header value: plain text, or the RFC 3339 rendering of an instant. */
  datatype HeaderValue = Text(text: string) | Rfc3339(instant: Time)

  type Headers = map<string, HeaderValue>

  datatype Message = Message(key: string, body: Body, headers: Headers)

  const HEADER_EVENT := "x-github-event"
  const HEADER_DELIVERY := "x-github-delivery"
  const HEADER_DLQ_REASON := "dlq-reason"
  const HEADER_ENRICH_STATUS := "enrich-status"
  const HEADER_OCCURRED_AT := "occurred-at"

  /** Indexing Go's header map: a missing header reads as the empty string. */
  function HeaderText(headers: Headers, name: string): string {
    if name in headers && headers[name].Text? then headers[name].text else ""
  }

  function Raw(msg: Message): RawEvent {
    RawEvent(HeaderText(msg.headers, HEADER_DELIVERY), HeaderText(msg.headers, HEADER_EVENT), msg.body)
  }

  /** The loop both services use to copy the inbound headers before stamping their own. */
  method CopyHeaders(headers: Headers) returns (copy: Headers)
    ensures copy == headers
  {
    copy := map[];
    var rest := headers.Keys;
    while rest != {}
      invariant rest <= headers.Keys
      invariant copy.Keys == headers.Keys - rest
      invariant forall k :: k in copy ==> copy[k] == headers[k]
      decreases rest
    {
      var k :| k in rest;
      copy := copy[k := headers[k]];
      rest := rest - {k};
    }
  }
}
