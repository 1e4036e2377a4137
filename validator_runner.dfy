/**
 * `ValidatorRunner`: runs its rules in order on one document, collects
 * their messages in rule order and folds the outputs into one status.
 * Explicit results decide the status when there are any (FAIL over WARN
 * over PASS); otherwise no message means PASS, an "E_" code means FAIL,
 * and anything else WARN.
 */
module RuleEngine {
  import opened Outcomes
  import opened JsonValues
  import opened Text
  import opened ValidatorResult

  /** A rule (`ValidatorFn`); raising is part of its result. */
  type Rule = Json -> Outcome<RuleOutput>

  /** Some message code starts with "E_". */
  predicate HasErrorCode(messages: seq<Message>) {
    exists i :: 0 <= i < |messages| && StartsWith(messages[i].code, "E_")
  }

  /** `_decide_status` */
  function DecideStatus(messages: seq<Message>, explicitStatuses: seq<Status>): (r: Status)
    ensures explicitStatuses != [] ==>
      && (r == Fail <==> Fail in explicitStatuses)
      && (r == Warn <==> Fail !in explicitStatuses && Warn in explicitStatuses)
    ensures explicitStatuses == [] ==>
      && (r == Pass <==> messages == [])
      && (r == Fail <==> HasErrorCode(messages))
  {
    if explicitStatuses != [] then
      if Fail in explicitStatuses then Fail
      else if Warn in explicitStatuses then Warn
      else Pass
    else if messages == [] then Pass
    else if HasErrorCode(messages) then Fail
    else Warn
  }

  /** The outputs of `rules` on `data`, in order; the first raise propagates. */
  function Outputs(rules: seq<Rule>, data: Json): Outcome<seq<RuleOutput>> {
    if rules == [] then Ok([])
    else
      var earlier :- Outputs(rules[..|rules| - 1], data);
      var last :- rules[|rules| - 1](data);
      Ok(earlier + [last])
  }

  /** Once a prefix of the rules raises, the whole run raises the same exception. */
  lemma {:induction false} OutputsRaiseEarly(rules: seq<Rule>, data: Json, k: nat)
    requires k <= |rules| && Outputs(rules[..k], data).Raise?
    ensures Outputs(rules, data) == Outputs(rules[..k], data)
    decreases |rules|
  {
    if k < |rules| {
      var init := rules[..|rules| - 1];
      assert init[..k] == rules[..k];
      OutputsRaiseEarly(init, data, k);
    } else {
      assert rules[..k] == rules;
    }
  }

  /** The concatenated messages of the outputs. */
  function MessagesOf(outs: seq<RuleOutput>): seq<Message> {
    if outs == [] then [] else MessagesOf(outs[..|outs| - 1]) + outs[|outs| - 1].Messages()
  }

  /** One more output adds its messages and, if explicit, its status at the end. */
  /** One more rule: its raise ends the run, its output is appended to the earlier ones. */
  lemma OutputsNext(rules: seq<Rule>, data: Json, i: nat, outs: seq<RuleOutput>)
    requires i < |rules| && Outputs(rules[..i], data) == Ok(outs)
    ensures rules[i](data).Raise? ==> Outputs(rules[..i + 1], data) == Raise(rules[i](data).exc)
    ensures rules[i](data).Ok? ==> Outputs(rules[..i + 1], data) == Ok(outs + [rules[i](data).value])
  {
    assert rules[..i + 1][..i] == rules[..i];
  }

  lemma OutputStep(outs: seq<RuleOutput>, out: RuleOutput)
    ensures MessagesOf(outs + [out]) == MessagesOf(outs) + out.Messages()
    ensures ExplicitsOf(outs + [out]) == ExplicitsOf(outs) + (if out.Explicit? then [out.result.status] else [])
  {
    assert (outs + [out])[..|outs|] == outs;
  }

  /** The branch of `run` on the type of one output: what it adds to the messages and the explicit statuses. */
  method Absorb(messages: seq<Message>, explicitStatuses: seq<Status>, out: RuleOutput)
    returns (messages': seq<Message>, explicitStatuses': seq<Status>)
    ensures messages' == messages + out.Messages()
    ensures explicitStatuses' == explicitStatuses + (if out.Explicit? then [out.result.status] else [])
  {
    messages', explicitStatuses' := messages, explicitStatuses;
    match out {
      case NoOutput =>
      case Explicit(result) =>
        explicitStatuses' := explicitStatuses' + [result.status];
        messages' := messages' + result.messages;
      case OneMessage(m) =>
        messages' := messages' + [m];
      case ManyMessages(ms) =>
        messages' := messages' + ms;
    }
  }

  /** The statuses of the explicit results among the outputs. */
  function ExplicitsOf(outs: seq<RuleOutput>): seq<Status> {
    if outs == [] then []
    else
      var last := outs[|outs| - 1];
      ExplicitsOf(outs[..|outs| - 1]) + (if last.Explicit? then [last.result.status] else [])
  }

  /** What `run` returns for the rule list `rules`. */
  function RunSpec(rules: seq<Rule>, data: Json): Outcome<RunnerResult> {
    var outs :- Outputs(rules, data);
    Ok(RunnerResult(DecideStatus(MessagesOf(outs), ExplicitsOf(outs)), MessagesOf(outs)))
  }

  /** Two rule lists that behave the same on every document. */
  ghost predicate SameRules(a: seq<Rule>, b: seq<Rule>) {
    |a| == |b| && forall i, d :: 0 <= i < |a| ==> a[i](d) == b[i](d)
  }

  /** Rule lists that behave alike give the same run. */
  lemma {:induction false} RunSpecExtensional(a: seq<Rule>, b: seq<Rule>, data: Json)
    requires SameRules(a, b)
    ensures Outputs(a, data) == Outputs(b, data)
    ensures RunSpec(a, data) == RunSpec(b, data)
    decreases |a|
  {
    if a != [] {
      var n := |a| - 1;
      assert SameRules(a[..n], b[..n]) by {
        forall i, d | 0 <= i < n
          ensures a[..n][i](d) == b[..n][i](d)
        {
          assert a[i](d) == b[i](d);
        }
      }
      RunSpecExtensional(a[..n], b[..n], data);
      assert a[n](data) == b[n](data);
    }
  }

  /** A runner without rules passes with no messages. */
  lemma NoRulesPass(data: Json)
    ensures RunSpec([], data) == Ok(RunnerResult(Pass, []))
  {
  }

  /**
   * Adding a rule appends its messages after the earlier ones; the earlier
   * messages keep their order.
   */
  lemma AddedRuleMessagesLast(rules: seq<Rule>, rule: Rule, data: Json)
    requires RunSpec(rules, data).Ok? && rule(data).Ok?
    ensures RunSpec(rules + [rule], data).Ok?
    ensures RunSpec(rules + [rule], data).value.messages
         == RunSpec(rules, data).value.messages + rule(data).value.Messages()
  {
    assert (rules + [rule])[..|rules|] == rules;
  }

  lemma {:induction false} MessageMembers(outs: seq<RuleOutput>, m: Message)
    ensures m in MessagesOf(outs) <==> exists o :: o in outs && m in o.Messages()
  {
    if outs != [] {
      var n := |outs| - 1;
      MessageMembers(outs[..n], m);
      assert outs == outs[..n] + [outs[n]];
      if m in MessagesOf(outs) && m !in MessagesOf(outs[..n]) {
        assert outs[n] in outs && m in outs[n].Messages();
      }
      if exists o :: o in outs && m in o.Messages() {
        var o :| o in outs && m in o.Messages();
        if o != outs[n] {
          assert o in outs[..n];
        }
      }
    }
  }

  lemma {:induction false} ExplicitMembers(outs: seq<RuleOutput>, s: Status)
    ensures s in ExplicitsOf(outs) <==> exists o :: o in outs && o.Explicit? && o.result.status == s
  {
    if outs != [] {
      var n := |outs| - 1;
      ExplicitMembers(outs[..n], s);
      assert outs == outs[..n] + [outs[n]];
      if exists o :: o in outs && o.Explicit? && o.result.status == s {
        var o :| o in outs && o.Explicit? && o.result.status == s;
        if o != outs[n] {
          assert o in outs[..n];
        }
      }
    }
  }

  lemma ErrorCodeMembers(outs: seq<RuleOutput>)
    ensures HasErrorCode(MessagesOf(outs))
        <==> exists o, m :: o in outs && m in o.Messages() && StartsWith(m.code, "E_")
  {
    var ms := MessagesOf(outs);
    if HasErrorCode(ms) {
      var i :| 0 <= i < |ms| && StartsWith(ms[i].code, "E_");
      MessageMembers(outs, ms[i]);
    }
    if exists o, m :: o in outs && m in o.Messages() && StartsWith(m.code, "E_") {
      var o, m :| o in outs && m in o.Messages() && StartsWith(m.code, "E_");
      MessageMembers(outs, m);
      var i :| 0 <= i < |ms| && ms[i] == m;
    }
  }

  /**
   * The status depends only on which outputs the rules gave, not on the
   * order of the rules; only the message order does.
   */
  lemma StatusIgnoresRuleOrder(outs1: seq<RuleOutput>, outs2: seq<RuleOutput>)
    requires multiset(outs1) == multiset(outs2)
    ensures DecideStatus(MessagesOf(outs1), ExplicitsOf(outs1))
         == DecideStatus(MessagesOf(outs2), ExplicitsOf(outs2))
  {
    forall o
      ensures o in outs1 <==> o in outs2
    {
      assert o in multiset(outs1) <==> o in multiset(outs2);
    }
    forall s
      ensures s in ExplicitsOf(outs1) <==> s in ExplicitsOf(outs2)
    {
      ExplicitMembers(outs1, s);
      ExplicitMembers(outs2, s);
    }
    assert MessagesOf(outs1) == [] <==> MessagesOf(outs2) == [] by {
      if MessagesOf(outs1) != [] {
        MessageMembers(outs1, MessagesOf(outs1)[0]);
        MessageMembers(outs2, MessagesOf(outs1)[0]);
      }
      if MessagesOf(outs2) != [] {
        MessageMembers(outs1, MessagesOf(outs2)[0]);
        MessageMembers(outs2, MessagesOf(outs2)[0]);
      }
    }
    assert ExplicitsOf(outs1) == [] <==> ExplicitsOf(outs2) == [] by {
      if ExplicitsOf(outs1) != [] {
        assert ExplicitsOf(outs1)[0] in ExplicitsOf(outs2);
      }
      if ExplicitsOf(outs2) != [] {
        assert ExplicitsOf(outs2)[0] in ExplicitsOf(outs1);
      }
    }
    ErrorCodeMembers(outs1);
    ErrorCodeMembers(outs2);
  }

  class ValidatorRunner {
    var validators: seq<Rule>

    /** `ValidatorRunner(validators)`; `None` is the empty list. */
    constructor(validators: seq<Rule>)
      ensures SameRules(this.validators, validators)
    {
      this.validators := validators;
    }

    /** `add`: one more rule at the end; the earlier rules stay as they were. */
    method Add(validator: Rule)
      modifies this
      ensures SameRules(validators, old(validators) + [validator])
    {
      validators := validators + [validator];
    }

    /** `run` */
    method Run(data: Json) returns (r: Outcome<RunnerResult>)
      ensures r == RunSpec(validators, data)
    {
      var rules := validators;
      var messages: seq<Message> := [];
      var explicitStatuses: seq<Status> := [];
      ghost var outs: seq<RuleOutput> := [];
      var i := 0;
      while i < |rules|
        invariant 0 <= i <= |rules|
        invariant Outputs(rules[..i], data) == Ok(outs)
        invariant messages == MessagesOf(outs)
        invariant explicitStatuses == ExplicitsOf(outs)
      {
        var res := rules[i](data);
        OutputsNext(rules, data, i, outs);
        if res.Raise? {
          OutputsRaiseEarly(rules, data, i + 1);
          return Raise(res.exc);
        }
        var out := res.value;
        OutputStep(outs, out);
        outs := outs + [out];
        messages, explicitStatuses := Absorb(messages, explicitStatuses, out);
        i := i + 1;
      }
      assert rules[..i] == rules;
      var status := DecideStatus(messages, explicitStatuses);
      r := Ok(RunnerResult(status, messages));
    }
  }
}
