/**
 * The scripted responders of both chat screens share one shape: an ordered
 * list of rules, each a set of trigger words and a canned reply. The first
 * rule with a trigger occurring in the lowered text wins; when none fires,
 * a fallback is used. This module states that shape once, as the reference
 * definition the two if/else chains are proved against.
 */
module ChatRules {
  import opened Text
  import opened Wrappers

  /** A rule: its trigger words and the answer it gives. */
  datatype Rule<R> = Rule(triggers: seq<string>, reply: R)

  /** `text.includes(t1) || text.includes(t2) || ...`, evaluated left to right. */
  predicate AnyContains(text: string, triggers: seq<string>)
  {
    triggers != [] && (Contains(text, triggers[0]) || AnyContains(text, triggers[1..]))
  }

  /** Some trigger of the list occurs in the text, and only then. */
  lemma {:induction false} AnyContainsIff(text: string, triggers: seq<string>)
    ensures AnyContains(text, triggers) <==> exists k :: 0 <= k < |triggers| && Contains(text, triggers[k])
  {
    if triggers != [] {
      AnyContainsIff(text, triggers[1..]);
      if exists k :: 0 <= k < |triggers| && Contains(text, triggers[k]) {
        var k :| 0 <= k < |triggers| && Contains(text, triggers[k]);
        if k > 0 {
          assert triggers[1..][k - 1] == triggers[k];
        }
      }
      if AnyContains(text, triggers[1..]) {
        var k :| 0 <= k < |triggers[1..]| && Contains(text, triggers[1..][k]);
        assert Contains(text, triggers[k + 1]);
      }
    }
  }

  /** The `||` chain unfolds one trigger at a time. */
  lemma AnyContainsCons(text: string, t: string, ts: seq<string>)
    ensures AnyContains(text, [t] + ts) <==> Contains(text, t) || AnyContains(text, ts)
  {
    assert ([t] + ts)[0] == t && ([t] + ts)[1..] == ts;
  }

  /** A list of one, two or three triggers is the plain `includes` test or the `||` of them. */
  lemma AnyContainsShort(text: string, a: string, b: string, c: string)
    ensures AnyContains(text, [a]) <==> Contains(text, a)
    ensures AnyContains(text, [a, b]) <==> Contains(text, a) || Contains(text, b)
    ensures AnyContains(text, [a, b, c]) <==> Contains(text, a) || Contains(text, b) || Contains(text, c)
  {
    AnyContainsCons(text, c, []);
    assert [c] + [] == [c];
    AnyContainsCons(text, b, [c]);
    assert [b] + [c] == [b, c];
    AnyContainsCons(text, a, [b, c]);
    assert [a] + [b, c] == [a, b, c];
    AnyContainsCons(text, b, []);
    assert [b] + [] == [b];
    AnyContainsCons(text, a, [b]);
    assert [a] + [b] == [a, b];
    AnyContainsCons(text, a, []);
    assert [a] + [] == [a];
  }

  predicate Fires<R>(rule: Rule<R>, text: string)
  {
    AnyContains(text, rule.triggers)
  }

  /** The index of the first rule that fires on the text, if any. */
  function FirstFiring<R>(rules: seq<Rule<R>>, text: string): (r: Option<nat>)
    ensures r.Some? ==> r.value < |rules| && Fires(rules[r.value], text)
    ensures r.Some? ==> forall k :: 0 <= k < r.value ==> !Fires(rules[k], text)
    ensures r.None? <==> forall k :: 0 <= k < |rules| ==> !Fires(rules[k], text)
  {
    if rules == [] then None
    else if Fires(rules[0], text) then Some(0)
    else match FirstFiring(rules[1..], text)
      case None => None
      case Some(k) => Some(k + 1)
  }

  /** The reply of the first rule that fires, or the fallback. */
  function Respond<R>(rules: seq<Rule<R>>, text: string, fallback: R): R
  {
    match FirstFiring(rules, text)
    case Some(k) => rules[k].reply
    case None => fallback
  }

  /** The rule at position k answers exactly when it fires and no earlier rule does. */
  lemma RespondByRule<R>(rules: seq<Rule<R>>, text: string, fallback: R, k: nat)
    requires k < |rules| && Fires(rules[k], text)
    requires forall j :: 0 <= j < k ==> !Fires(rules[j], text)
    ensures Respond(rules, text, fallback) == rules[k].reply
  {
    var r := FirstFiring(rules, text);
    assert r.Some?;
    assert r.value == k by {
      assert !(r.value < k);
      assert !(k < r.value);
    }
  }

  /** The fallback answers exactly when no rule fires, provided it differs from every reply. */
  lemma FallbackIffNoRuleFires<R>(rules: seq<Rule<R>>, text: string, fallback: R)
    requires forall k :: 0 <= k < |rules| ==> rules[k].reply != fallback
    ensures Respond(rules, text, fallback) == fallback <==> forall k :: 0 <= k < |rules| ==> !Fires(rules[k], text)
  {
  }

  /** Rules whose triggers occur in the same places answer the same way. */
  lemma FirstFiringSameText<R>(rules: seq<Rule<R>>, a: string, b: string)
    requires forall k :: 0 <= k < |rules| ==> (Fires(rules[k], a) <==> Fires(rules[k], b))
    ensures FirstFiring(rules, a) == FirstFiring(rules, b)
  {
    var ra, rb := FirstFiring(rules, a), FirstFiring(rules, b);
    if ra.Some? && rb.Some? {
      assert !(ra.value < rb.value) && !(rb.value < ra.value);
    }
  }
}
