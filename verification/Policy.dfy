/** Policy evaluation and the cache of node decisions that the workflow engine keeps. */
module Policy {
  import opened Ids

  datatype PolicyEffect = Allow | Deny | RequireApproval | RequireInformation | Transform | Redact | RateLimit | Quarantine

  datatype Rule = Rule(
    id: string, actionType: string, environments: seq<string>, risks: seq<string>, maximum: Option<int>, effect: PolicyEffect)

  datatype Bundle = Bundle(enabled: bool, validUntil: Option<int>, rules: seq<Rule>)

  /**
   * A stored document. It has no content when it does not parse; `spelled` says that it spells
   * out every default, so that parsing it and writing it back gives the same document.
   */
  datatype Document = Document(content: Option<Bundle>, spelled: bool)

  /** The parts of a policy context that decide, without the time. */
  datatype Subject = Subject(actionType: string, environment: string, risk: string, amount: int)

  datatype Decision = Decision(effect: PolicyEffect, reasonCode: string, policy: Document, expires: int)

  datatype Unavailable = NoBundle | InvalidBundle | DisabledBundle | ExpiredBundle | StaleBundle | DigestDiffers

  datatype Answer<+T> = Decided(value: T) | Fails(why: Unavailable)

  const LIFETIME: int := 600

  predicate RuleMatches(r: Rule, x: Subject) {
    && r.actionType == x.actionType && x.environment in r.environments && x.risk in r.risks
    && (r.maximum.Some? ==> x.amount <= r.maximum.value)
  }

  /** The first rule in list order that matches. */
  function FirstMatch(rules: seq<Rule>, x: Subject): Option<Rule> {
    if rules == [] then None
    else if RuleMatches(rules[0], x) then Some(rules[0])
    else FirstMatch(rules[1..], x)
  }

  /** Effect and reason code for a subject; no match denies. */
  function Ruling(rules: seq<Rule>, x: Subject): (PolicyEffect, string) {
    var r := FirstMatch(rules, x);
    if r.Some? then (r.value.effect, r.value.id) else (Deny, "default_deny")
  }

  function Written(d: Document): Document {
    d.(spelled := true)
  }

  function Evaluate(d: Option<Document>, x: Subject, now: int): Answer<Decision> {
    if d.None? then Fails(NoBundle)
    else if d.value.content.None? then Fails(InvalidBundle)
    else
      var bundle := d.value.content.value;
      if !bundle.enabled then Fails(DisabledBundle)
      else if bundle.validUntil.Some? && bundle.validUntil.value <= now then Fails(ExpiredBundle)
      else
        var (effect, reason) := Ruling(bundle.rules, x);
        Decided(Decision(effect, reason, Written(d.value), now + LIFETIME))
  }

  /** Position `k` is where the scan stops. */
  predicate FirstAt(rules: seq<Rule>, x: Subject, k: nat) {
    k < |rules| && RuleMatches(rules[k], x) && forall j | 0 <= j < k :: !RuleMatches(rules[j], x)
  }

  /** The scan returns the first matching rule, and nothing exactly when no rule matches. */
  lemma {:induction false} FirstMatchIsFirst(rules: seq<Rule>, x: Subject)
    ensures FirstMatch(rules, x).None? <==> forall k | 0 <= k < |rules| :: !RuleMatches(rules[k], x)
    ensures FirstMatch(rules, x).Some? ==> exists k: nat :: FirstAt(rules, x, k) && FirstMatch(rules, x).value == rules[k]
  {
    if rules != [] {
      if RuleMatches(rules[0], x) {
        assert FirstAt(rules, x, 0);
      } else {
        var rest := rules[1..];
        FirstMatchIsFirst(rest, x);
        if FirstMatch(rest, x).Some? {
          var k: nat :| FirstAt(rest, x, k) && FirstMatch(rest, x).value == rest[k];
          Shift(rules, x, k);
        } else {
          forall k | 0 <= k < |rules| ensures !RuleMatches(rules[k], x) {
            assert k > 0 ==> rules[k] == rest[k - 1];
          }
        }
      }
    }
  }

  lemma Shift(rules: seq<Rule>, x: Subject, k: nat)
    requires rules != [] && !RuleMatches(rules[0], x) && FirstAt(rules[1..], x, k)
    ensures FirstAt(rules, x, k + 1) && rules[k + 1] == rules[1..][k]
  {
    forall j | 0 <= j < k + 1 ensures !RuleMatches(rules[j], x) {
      assert j > 0 ==> rules[j] == rules[1..][j - 1];
    }
  }

  /** The rule names the action, lists the environment and the risk, and allows the amount. */
  predicate Covers(r: Rule, x: Subject) {
    && r.actionType == x.actionType
    && (exists i | 0 <= i < |r.environments| :: r.environments[i] == x.environment)
    && (exists i | 0 <= i < |r.risks| :: r.risks[i] == x.risk)
    && (r.maximum.None? || x.amount <= r.maximum.value)
  }

  lemma CoversMeans(r: Rule, x: Subject)
    ensures Covers(r, x) <==> RuleMatches(r, x)
  {
  }

  /** Rule `k` decides: it covers the subject and no rule before it does. */
  predicate Deciding(rules: seq<Rule>, x: Subject, k: nat) {
    k < |rules| && Covers(rules[k], x) && forall j | 0 <= j < k :: !Covers(rules[j], x)
  }

  /**
   * What an evaluation answers: an unusable bundle fails, in this order of reasons; otherwise the
   * first rule that covers the subject decides, for ten minutes, and without one the answer is deny.
   */
  lemma EvaluateOutcome(d: Option<Document>, x: Subject, now: int)
    ensures Evaluate(d, x, now).Fails? ==>
              Evaluate(d, x, now).why ==
              if d.None? then NoBundle else if d.value.content.None? then InvalidBundle
              else if !d.value.content.value.enabled then DisabledBundle else ExpiredBundle
    ensures Evaluate(d, x, now).Decided? <==>
            && d.Some? && d.value.content.Some? && d.value.content.value.enabled
            && (d.value.content.value.validUntil.None? || now < d.value.content.value.validUntil.value)
    ensures Evaluate(d, x, now).Decided? ==>
              var rules, made := d.value.content.value.rules, Evaluate(d, x, now).value;
              && made.expires == now + 600 && made.policy == d.value.(spelled := true)
              && (forall k: nat | Deciding(rules, x, k) :: made.effect == rules[k].effect && made.reasonCode == rules[k].id)
              && ((forall k | 0 <= k < |rules| :: !Covers(rules[k], x)) ==> made.effect == Deny && made.reasonCode == "default_deny")
  {
    hide FirstMatch, RuleMatches, Covers;
    if Evaluate(d, x, now).Decided? {
      var rules := d.value.content.value.rules;
      FirstMatchIsFirst(rules, x);
      forall k | 0 <= k < |rules| ensures Covers(rules[k], x) <==> RuleMatches(rules[k], x) {
        CoversMeans(rules[k], x);
      }
      forall k: nat | Deciding(rules, x, k) ensures FirstMatch(rules, x) == Some(rules[k]) {
        var n: nat :| FirstAt(rules, x, n) && FirstMatch(rules, x).value == rules[n];
        assert n == k;
      }
    }
  }

  /** Appending rules never changes a ruling that some earlier rule made. */
  lemma LaterRulesDoNotOverride(rules: seq<Rule>, more: seq<Rule>, x: Subject)
    requires FirstMatch(rules, x).Some?
    ensures Ruling(rules + more, x) == Ruling(rules, x)
  {
    hide FirstMatch, RuleMatches;
    FirstMatchIsFirst(rules, x);
    FirstMatchIsFirst(rules + more, x);
    var k: nat :| FirstAt(rules, x, k) && FirstMatch(rules, x).value == rules[k];
    assert forall j | 0 <= j <= k :: (rules + more)[j] == rules[j];
    assert RuleMatches((rules + more)[k], x);
    var n: nat :| FirstAt(rules + more, x, n) && FirstMatch(rules + more, x).value == (rules + more)[n];
    assert n == k;
  }

  // ---------------------------------------------------------------- the decision cache

  /** The policy bundle a node refers to, as stored. */
  datatype Stored = Stored(usable: bool, document: Document, digest: Document)

  /** What a node decision depends on besides the policy: the subject and the execution's state. */
  datatype Input = Input(subject: Subject, state: nat)

  datatype Row = Row(evaluation: nat, effect: PolicyEffect, reasonCode: string, input: Input, policy: Document, expires: int)

  predicate Current(p: Stored) {
    p.usable && p.digest == p.document
  }

  /** The latest row is still good for this policy and input. */
  predicate Reusable(rows: seq<Row>, p: Stored, input: Input, now: int) {
    rows != [] &&
    var latest := rows[|rows| - 1];
    latest.expires > now && latest.policy == p.digest && latest.input == input
  }

  /** A decision made afresh. */
  function Afresh(p: Stored, input: Input, now: int): Answer<Decision> {
    var made := Evaluate(Some(p.document), input.subject, now);
    if made.Fails? then made
    else if made.value.policy != p.digest then Fails(DigestDiffers)
    else made
  }

  /** `evaluate_workflow_node_policy` at one node and step: the rows afterwards, and the row that decides. */
  function DecideNode(rows: seq<Row>, p: Stored, input: Input, now: int): Answer<seq<Row>> {
    if !Current(p) then Fails(StaleBundle)
    else if Reusable(rows, p, input, now) then Decided(rows)
    else
      var made := Afresh(p, input, now);
      if made.Fails? then Fails(made.why)
      else Decided(rows + [Row(|rows| + 1, made.value.effect, made.value.reasonCode, input, made.value.policy, made.value.expires)])
  }

  /**
   * A node decision: refused while the bundle is unusable or its digest stale, reused while the
   * latest row is unexpired and made by this policy on this input, and otherwise made afresh.
   */
  lemma DecideNodeOutcome(rows: seq<Row>, p: Stored, input: Input, now: int)
    ensures !p.usable || p.digest != p.document ==> DecideNode(rows, p, input, now) == Fails(StaleBundle)
    ensures p.usable && p.digest == p.document && rows != [] && rows[|rows| - 1].expires > now
            && rows[|rows| - 1].policy == p.digest && rows[|rows| - 1].input == input ==>
              DecideNode(rows, p, input, now) == Decided(rows)
    ensures p.usable && p.digest == p.document
            && (rows == [] || rows[|rows| - 1].expires <= now || rows[|rows| - 1].policy != p.digest || rows[|rows| - 1].input != input) ==>
              var made := Evaluate(Some(p.document), input.subject, now);
              if made.Fails? then DecideNode(rows, p, input, now) == Fails(made.why)
              else if !p.document.spelled then DecideNode(rows, p, input, now) == Fails(DigestDiffers)
              else
                DecideNode(rows, p, input, now) ==
                Decided(rows + [Row(|rows| + 1, made.value.effect, made.value.reasonCode, input, p.digest, now + 600)])
  {
  }

  /** The row is what its policy ruled on its input. */
  predicate RowFits(r: Row) {
    && r.policy.content.Some? && r.policy.spelled && r.policy.content.value.enabled
    && Ruling(r.policy.content.value.rules, r.input.subject) == (r.effect, r.reasonCode)
  }

  predicate LogFits(rows: seq<Row>) {
    forall i | 0 <= i < |rows| :: RowFits(rows[i]) && rows[i].evaluation == i + 1
  }

  lemma DecideNodeKeeps(rows: seq<Row>, p: Stored, input: Input, now: int)
    requires LogFits(rows) && DecideNode(rows, p, input, now).Decided?
    ensures LogFits(DecideNode(rows, p, input, now).value) && DecideNode(rows, p, input, now).value != []
  {
  }

  /** The bundle has run out. */
  predicate Expired(d: Document, now: int) {
    d.content.Some? && d.content.value.validUntil.Some? && d.content.value.validUntil.value <= now
  }

  /**
   * A decision that is reused agrees with a fresh evaluation exactly while the bundle has not
   * run out: the cache check never looks at `valid_until`.
   */
  lemma ReuseAgrees(rows: seq<Row>, p: Stored, input: Input, now: int)
    requires LogFits(rows) && Current(p) && Reusable(rows, p, input, now)
    ensures var latest := rows[|rows| - 1];
            (exists d :: Afresh(p, input, now) == Decided(d) && d.effect == latest.effect && d.reasonCode == latest.reasonCode)
            <==> !Expired(p.document, now)
    ensures Expired(p.document, now) ==> Afresh(p, input, now) == Fails(ExpiredBundle)
  {
    hide Ruling;
    var latest := rows[|rows| - 1];
    assert RowFits(latest);
    if !Expired(p.document, now) {
      assert Afresh(p, input, now).Decided?;
    }
  }

  datatype Query = Query(policy: Stored, input: Input, now: int)

  /** The decisions on record after a sequence of queries at one node and step. */
  function Log(queries: seq<Query>): seq<Row> {
    if queries == [] then []
    else
      var n := |queries| - 1;
      var rows := Log(queries[..n]);
      var answer := DecideNode(rows, queries[n].policy, queries[n].input, queries[n].now);
      if answer.Decided? then answer.value else rows
  }

  lemma {:induction false} LogAlwaysFits(queries: seq<Query>)
    ensures LogFits(Log(queries))
  {
    if queries != [] {
      var n := |queries| - 1;
      LogAlwaysFits(queries[..n]);
      var rows := Log(queries[..n]);
      if DecideNode(rows, queries[n].policy, queries[n].input, queries[n].now).Decided? {
        DecideNodeKeeps(rows, queries[n].policy, queries[n].input, queries[n].now);
      }
    }
  }

  /**
   * After any queries, the answer to the next one has the effect and reason code that the
   * current policy gives at that moment, provided the bundle has not run out.
   */
  lemma AnswersAreCurrent(queries: seq<Query>, q: Query)
    requires Current(q.policy) && !Expired(q.policy.document, q.now)
    ensures var answer := DecideNode(Log(queries), q.policy, q.input, q.now);
            var made := Afresh(q.policy, q.input, q.now);
            && (answer.Decided? <==> made.Decided?)
            && (answer.Decided? ==>
                  var row := answer.value[|answer.value| - 1];
                  row.effect == made.value.effect && row.reasonCode == made.value.reasonCode)
  {
    hide Ruling, Log, Evaluate;
    LogAlwaysFits(queries);
    if Reusable(Log(queries), q.policy, q.input, q.now) {
      ReuseAgrees(Log(queries), q.policy, q.input, q.now);
    } else if DecideNode(Log(queries), q.policy, q.input, q.now).Decided? {
      DecideNodeKeeps(Log(queries), q.policy, q.input, q.now);
    }
  }

  /** A cached permission outlives its bundle: the reused row allows while a fresh evaluation fails. */
  lemma CacheOutlivesBundle()
    ensures exists rows: seq<Row>, p: Stored, input: Input, now: int ::
              LogFits(rows) && Current(p) && Reusable(rows, p, input, now) && rows[|rows| - 1].effect == Allow
              && Afresh(p, input, now) == Fails(ExpiredBundle)
  {
    var rule := Rule("all", "workflow.node.execute", ["development"], ["low"], None, Allow);
    var document := Document(Some(Bundle(true, Some(100), [rule])), true);
    var p := Stored(true, document, document);
    var input := Input(Subject("workflow.node.execute", "development", "low", 0), 0);
    var rows := DecideNode([], p, input, 99).value;
    assert RuleMatches(rule, input.subject);
    assert LogFits(rows) && Current(p) && Reusable(rows, p, input, 100) && rows[|rows| - 1].effect == Allow
           && Afresh(p, input, 100) == Fails(ExpiredBundle);
  }

  /** The decision rows of one node and step. */
  class DecisionLog {
    var rows: seq<Row>

    constructor ()
      ensures rows == []
    {
      rows := [];
    }

    /** Reuses the latest decision or makes and stores a new one; a failure stores nothing. */
    method Decide(p: Stored, input: Input, now: int) returns (answer: Answer<Row>)
      requires LogFits(rows)
      modifies this
      ensures LogFits(rows)
      ensures var spec := DecideNode(old(rows), p, input, now);
              if spec.Fails? then answer == Fails(spec.why) && rows == old(rows)
              else rows == spec.value && rows != [] && answer == Decided(rows[|rows| - 1])
    {
      if !p.usable || p.digest != p.document {
        return Fails(StaleBundle);
      }
      if rows != [] {
        var latest := rows[|rows| - 1];
        if latest.expires > now && latest.policy == p.digest && latest.input == input {
          return Decided(latest);
        }
      }
      var decision := Evaluate(Some(p.document), input.subject, now);
      if decision.Fails? {
        return Fails(decision.why);
      }
      if decision.value.policy != p.digest {
        return Fails(DigestDiffers);
      }
      var row := Row(|rows| + 1, decision.value.effect, decision.value.reasonCode, input, decision.value.policy, decision.value.expires);
      rows := rows + [row];
      return Decided(row);
    }
  }
}
