/** Error classification of the Redis telemetry hook: formatError maps an error to a
    short, stable label that dashboards key on. */
module Classifier {
  import opened Optional

  /** The errors the classifier can tell apart. Go compares the sentinel errors by
      identity, so each sentinel is a constructor of its own; every other error value
      (a wrapped sentinel included) is Other. */
  datatype Error =
    | RedisNil                   // red.Nil, the store's "key not found" reply
    | NetOpError(timeout: bool)  // a *net.OpError; timeout is what its Timeout() reports
    | EOF                        // io.EOF
    | DeadlineExceeded           // context.DeadlineExceeded
    | ServiceUnavailable         // breaker.ErrServiceUnavailable
    | Other(text: string)

  const NoLabel: string := ""
  const TimeoutLabel: string := "timeout"
  const EofLabel: string := "eof"
  const DeadlineLabel: string := "context deadline"
  const BreakerLabel: string := "breaker"
  const UnexpectedLabel: string := "unexpected error"

  /** The closed vocabulary of labels given to failures. */
  const FailureLabels: set<string> :=
    {TimeoutLabel, EofLabel, DeadlineLabel, BreakerLabel, UnexpectedLabel}

  /** nil and the not-found sentinel are successes for every telemetry purpose. */
  predicate IsSuccess(err: Option<Error>) {
    err == None || err == Some(RedisNil)
  }

  /** formatError: the empty label exactly for successes, otherwise one label of the
      closed vocabulary. A network error that is not a timeout is "unexpected". */
  function FormatError(err: Option<Error>): (tag: string)
    ensures tag == NoLabel <==> IsSuccess(err)
    ensures !IsSuccess(err) ==> tag in FailureLabels
    ensures tag == TimeoutLabel <==> err.Some? && err.value.NetOpError? && err.value.timeout
    ensures err.Some? && err.value.NetOpError? && !err.value.timeout ==> tag == UnexpectedLabel
    ensures err.Some? && err.value.Other? ==> tag == UnexpectedLabel
  {
    if err == None || err == Some(RedisNil) then NoLabel
    else if err.value.NetOpError? && err.value.timeout then TimeoutLabel
    else
      match err.value
      case EOF => EofLabel
      case DeadlineExceeded => DeadlineLabel
      case ServiceUnavailable => BreakerLabel
      case _ => UnexpectedLabel
  }

  /** One check of the classifier: a test on a failing error and the label it gives. */
  datatype Rule = Rule(applies: Error -> bool, tag: string)

  /** The checks that follow the success test, in the order they are tried. */
  function Rules(): seq<Rule> {
    [ Rule((e: Error) => e.NetOpError? && e.timeout, TimeoutLabel),
      Rule(e => e == EOF, EofLabel),
      Rule(e => e == DeadlineExceeded, DeadlineLabel),
      Rule(e => e == ServiceUnavailable, BreakerLabel) ]
  }

  /** The label of the first rule that applies, if any. */
  function FirstMatch(rules: seq<Rule>, e: Error): Option<string> {
    if rules == [] then None
    else if rules[0].applies(e) then Some(rules[0].tag)
    else FirstMatch(rules[1..], e)
  }

  /** Reference classifier: success first, then first match wins, then the default. */
  function ClassifyByRules(err: Option<Error>): string {
    if IsSuccess(err) then NoLabel
    else
      match FirstMatch(Rules(), err.value)
      case Some(tag) => tag
      case None => UnexpectedLabel
  }

  /** The first label in a rule list that matches is determined by the rules in front of
      it only: rules after a match are never consulted. */
  lemma {:induction false} FirstMatchStopsAtFirst(rules: seq<Rule>, k: nat, e: Error)
    requires k < |rules| && rules[k].applies(e)
    requires forall j | 0 <= j < k :: !rules[j].applies(e)
    ensures FirstMatch(rules, e) == Some(rules[k].tag)
  {
    if k > 0 {
      FirstMatchStopsAtFirst(rules[1..], k - 1, e);
    }
  }

  /** When no rule applies the rule list yields nothing. */
  lemma {:induction false} FirstMatchNone(rules: seq<Rule>, e: Error)
    requires forall j | 0 <= j < |rules| :: !rules[j].applies(e)
    ensures FirstMatch(rules, e) == None
  {
    if rules != [] {
      FirstMatchNone(rules[1..], e);
    }
  }

  /** formatError is exactly the ordered, first-match-wins classifier. */
  lemma {:induction false} FormatErrorIsFirstMatch(err: Option<Error>)
    ensures FormatError(err) == ClassifyByRules(err)
  {
    if !IsSuccess(err) {
      var e, rules := err.value, Rules();
      if e.NetOpError? && e.timeout {
        FirstMatchStopsAtFirst(rules, 0, e);
      } else if e == EOF {
        FirstMatchStopsAtFirst(rules, 1, e);
      } else if e == DeadlineExceeded {
        FirstMatchStopsAtFirst(rules, 2, e);
      } else if e == ServiceUnavailable {
        FirstMatchStopsAtFirst(rules, 3, e);
      } else {
        FirstMatchNone(rules, e);
      }
    }
  }
}
