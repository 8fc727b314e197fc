/**
 * The messages the service sends (main.py, send_email and its two callers).
 * SMTP delivery is outside the model: a message is "sent" when it is handed
 * to the transport, whose failures send_email logs and swallows.
 */
module Email {
  import opened Prices

  /** What a message body reports: a dropped price for a product page, or a
      request to the operator to support a new shop. */
  datatype Content = DropAlert(price: Price, url: string) | AddSupport(domain: string)

  datatype Message = Message(recipient: string, subject: string, content: Content)

  const DropSubject: string := "Price Drop Alert!"
  const SupportSubject: string := "Website Support!"

  /** The alert sent to a subscriber when the product at `url` is now `price`. */
  function DropAlertTo(subscriber: string, price: Price, url: string): (m: Message)
    ensures m.recipient == subscriber && m.subject == DropSubject
    ensures m.content.DropAlert? && m.content.price == price && m.content.url == url
  {
    Message(subscriber, DropSubject, DropAlert(price, url))
  }

  /** The message asking the operator to add a selector for `domain`. */
  function SupportRequestTo(support: string, domain: string): (m: Message)
    ensures m.recipient == support && m.subject == SupportSubject
    ensures m.content.AddSupport? && m.content.domain == domain
  {
    Message(support, SupportSubject, AddSupport(domain))
  }
}
