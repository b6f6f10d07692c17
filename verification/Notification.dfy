/** The notification domain: channels, priorities, lanes and queued messages. */
module Notification {

  const EMAIL := "email"
  const SMS := "sms"
  const PUSH := "push"
  const TRANSACTIONAL := "transactional"
  const BULK := "bulk"

  predicate ValidType(typ: string) {
    typ == EMAIL || typ == SMS || typ == PUSH
  }

  predicate ValidPriority(priority: string) {
    priority == TRANSACTIONAL || priority == BULK
  }

  datatype Recipient = Recipient(email: string, phoneNumber: string, deviceToken: string, userId: string)

  /** Values of the free-form template data, as JSON carries them. */
  datatype Json =
    | Null
    | Bool(b: bool)
    | Number(n: real)
    | Text(s: string)
    | Array(items: seq<Json>)
    | Object(fields: map<string, Json>)

  datatype Message = Message(
    id: string,
    typ: string,
    priority: string,
    recipient: Recipient,
    templateId: string,
    data: map<string, Json>,
    metadata: map<string, string>,
    createdAt: int,
    retryCount: int)
  {
    /** The copy published for a retry. */
    function Retried(): Message {
      this.(retryCount := retryCount + 1)
    }

    predicate CanRetry(maxRetries: int) {
      retryCount < maxRetries
    }

    /** Same notification: equal in every field but the retry count. */
    predicate SameAs(m: Message) {
      this == m.(retryCount := retryCount)
    }
  }
}
