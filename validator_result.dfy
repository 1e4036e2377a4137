/**
 * The result vocabulary of the rule engine: a status, messages with a
 * code, a text and an optional field, and what a rule may return.
 */
module ValidatorResult {
  import opened Outcomes

  /** `ValidationStatus`: the lower-case enum values "pass", "warn", "fail". */
  datatype Status = Pass | Warn | Fail
  {
    function Value(): string {
      match this
      case Pass => "pass"
      case Warn => "warn"
      case Fail => "fail"
    }
  }

  datatype Message = Message(code: string, text: string, field: Option<string>)

  /** The runner's `ValidationResult`. */
  datatype RunnerResult = RunnerResult(status: Status, messages: seq<Message>)
  {
    /** `is_valid`: anything but FAIL. */
    predicate IsValid() {
      status != Fail
    }
  }

  /**
   * What a rule returns: `None`, one message, an explicit result, or an
   * iterable of messages.
   */
  datatype RuleOutput =
    | NoOutput
    | OneMessage(msg: Message)
    | Explicit(result: RunnerResult)
    | ManyMessages(msgs: seq<Message>)
  {
    /** The messages the runner takes from this output. */
    function Messages(): seq<Message> {
      match this
      case NoOutput => []
      case OneMessage(m) => [m]
      case Explicit(r) => r.messages
      case ManyMessages(ms) => ms
    }
  }

  /** `[m.code for m in messages]` */
  function Codes(messages: seq<Message>): (r: seq<string>)
    ensures |r| == |messages|
    ensures forall i :: 0 <= i < |r| ==> r[i] == messages[i].code
  {
    if messages == [] then [] else [messages[0].code] + Codes(messages[1..])
  }

  lemma CodesAppend(ms: seq<Message>, m: Message)
    ensures Codes(ms + [m]) == Codes(ms) + [m.code]
  {
  }
}
