/**
  The response humanizer of the agent: rewrites the executor's raw answer
  into a friendlier reply. Rules, in order: a blank answer gets a
  clarifying question; an answer mentioning "error" (in any case) gets a
  request for more information, or for the customer ID when the query is
  about loyalty; otherwise a topic follow-up is appended and formal
  openings are softened.
 */
module Humanizer {
  import opened Wrappers
  import opened Text

  const ClarifyText: string :=
    "\U{1F914} I'm not sure how to respond to that. Could you give me more details?"
  const CustomerIdPrompt: string :=
    "\U{1F50D} To check loyalty points, I'll need your customer ID. Could you share that? (Example: 'My ID is C001')"
  const MoreInfoPrefix: string :=
    "\U{1F6E0}\U{FE0F} I need a bit more info to help with that. "

  /** Topic keyword of the lower-cased query, and the follow-up question it earns. */
  const FollowUps: seq<(string, string)> := [
    ("order status", "\n\nIs there anything else you'd like to know about this order?"),
    ("product", "\n\nWould you like me to suggest similar products?"),
    ("loyalty", "\n\nWould you like to know how to earn more points?")
  ]

  /** Formal opening of an answer, and the friendly phrase that replaces it. */
  const Replacements: seq<(string, string)> := [
    ("The status is", "I see your order status is"),
    ("The product details are", "Here's what I found about this product:"),
    ("Your loyalty points are", "You've got")
  ]

  /** The one failure classifier: the text mentions "error" in any letter case. */
  predicate IsFailureText(s: string) {
    Contains(Lower(s), "error")
  }

  /**
    The follow-up loop: for each table row in order, append its sentence when
    the key occurs in the query and the answer, as updated so far, holds no "?".
   */
  function AppendFollowUps(response: string, loweredQuery: string, table: seq<(string, string)>): string
    decreases |table|
  {
    if table == [] then response
    else
      var next := if Contains(loweredQuery, table[0].0) && !Contains(response, "?")
        then response + table[0].1 else response;
      AppendFollowUps(next, loweredQuery, table[1..])
  }

  /** The replacement loop: every row whose formal phrase opens the current text is replaced throughout. */
  function Soften(response: string, table: seq<(string, string)>): string
    requires forall i :: 0 <= i < |table| ==> |table[i].0| > 0
    decreases |table|
  {
    if table == [] then response
    else
      var next := if StartsWith(response, table[0].0)
        then ReplaceAll(response, table[0].0, table[0].1) else response;
      Soften(next, table[1..])
  }

  /** The humanizer of the agent, rule by rule. */
  function Humanize(response: string, originalQuery: string): string {
    if IsBlank(response) then ClarifyText
    else if IsFailureText(response) then
      if Contains(Lower(originalQuery), "loyalty") then CustomerIdPrompt
      else MoreInfoPrefix + Capitalize(ReplaceAll(response, "error:", ""))
    else Soften(AppendFollowUps(response, Lower(originalQuery), FollowUps), Replacements)
  }

  /** The follow-up of the first table row whose key occurs in the query. */
  function FirstMatch(loweredQuery: string, table: seq<(string, string)>): (r: Option<string>)
    ensures r.Some? ==> exists i :: (0 <= i < |table| && r.value == table[i].1 && Contains(loweredQuery, table[i].0)
                                     && forall j :: 0 <= j < i ==> !Contains(loweredQuery, table[j].0))
    ensures r.None? ==> forall i :: 0 <= i < |table| ==> !Contains(loweredQuery, table[i].0)
  {
    if table == [] then None
    else if Contains(loweredQuery, table[0].0) then Some(table[0].1)
    else FirstMatch(loweredQuery, table[1..])
  }

  /** What the follow-up loop is meant to add: one sentence, and only to an answer without "?". */
  function FollowUpFor(response: string, loweredQuery: string, table: seq<(string, string)>): string {
    if Contains(response, "?") then ""
    else match FirstMatch(loweredQuery, table)
      case None => ""
      case Some(sentence) => sentence
  }

  /** Every follow-up sentence of the table asks a question. */
  predicate AllAsk(table: seq<(string, string)>) {
    forall i :: 0 <= i < |table| ==> Contains(table[i].1, "?")
  }

  /**
    Because the "?" guard is re-checked on the growing answer and every
    sentence holds a "?", the loop appends at most one sentence: the one of
    the first matching key, and none if the answer already asked a question.
   */
  lemma {:induction false} AppendFollowUpsAtMostOne(response: string, loweredQuery: string, table: seq<(string, string)>)
    requires AllAsk(table)
    ensures AppendFollowUps(response, loweredQuery, table)
         == response + FollowUpFor(response, loweredQuery, table)
    decreases |table|
  {
    if table != [] {
      var rest := table[1..];
      assert AllAsk(rest) by {
        forall i | 0 <= i < |rest| ensures Contains(rest[i].1, "?") {
          assert rest[i] == table[i + 1];
        }
      }
      if Contains(loweredQuery, table[0].0) && !Contains(response, "?") {
        var next := response + table[0].1;
        assert Contains(table[0].1, "?");
        ContainsConcat(response, table[0].1, "?");
        AppendFollowUpsAtMostOne(next, loweredQuery, rest);
        assert next + "" == next;
      } else {
        AppendFollowUpsAtMostOne(response, loweredQuery, rest);
      }
    } else {
      assert response + "" == response;
    }
  }

  lemma FollowUpsAsk()
    ensures AllAsk(FollowUps)
  {
    forall i | 0 <= i < |FollowUps| ensures Contains(FollowUps[i].1, "?") {
      var s := FollowUps[i].1;
      assert s[|s| - 1] == '?';
      assert OccursAt(s, "?", |s| - 1);
    }
  }

  /** A second pass of the follow-up loop over its own output appends nothing. */
  lemma FollowUpsIdempotent(response: string, loweredQuery: string)
    ensures var once := AppendFollowUps(response, loweredQuery, FollowUps);
      AppendFollowUps(once, loweredQuery, FollowUps) == once
  {
    FollowUpsAsk();
    var once := AppendFollowUps(response, loweredQuery, FollowUps);
    AppendFollowUpsAtMostOne(response, loweredQuery, FollowUps);
    AppendFollowUpsAtMostOne(once, loweredQuery, FollowUps);
    var added := FollowUpFor(response, loweredQuery, FollowUps);
    if added != "" {
      var i :| 0 <= i < |FollowUps| && added == FollowUps[i].1;
      ContainsConcat(response, added, "?");
    }
    assert Contains(once, "?") || once == response + "";
    assert once + "" == once;
  }

  /** The answer starts with none of the table's formal phrases. */
  predicate NoFormalOpening(response: string, table: seq<(string, string)>) {
    forall i :: 0 <= i < |table| ==> !StartsWith(response, table[i].0)
  }

  /** An answer that opens with no formal phrase is not softened at all. */
  lemma {:induction false} SoftenInformal(response: string, table: seq<(string, string)>)
    requires forall i :: 0 <= i < |table| ==> |table[i].0| > 0
    requires NoFormalOpening(response, table)
    ensures Soften(response, table) == response
  {
    if table != [] {
      assert !StartsWith(response, table[0].0);
      SoftenInformal(response, table[1..]);
    }
  }

  /** Two texts that differ at some index below both lengths cannot open one another. */
  lemma DifferentOpening(s: string, p: string, k: nat)
    requires k < |s| && k < |p| && s[k] != p[k]
    ensures !StartsWith(s, p)
  {
  }

  /**
    With the agent's table, an answer that opens with a formal phrase ends up
    opening with the matching friendly phrase; the phrases are exclusive, so
    only that row fires.
   */
  lemma SoftenOpening(response: string, k: nat)
    requires k < |Replacements| && StartsWith(response, Replacements[k].0)
    ensures StartsWith(Soften(response, Replacements), Replacements[k].1)
    ensures Soften(response, Replacements)
         == ReplaceAll(response, Replacements[k].0, Replacements[k].1)
  {
    var f0, g0 := Replacements[0].0, Replacements[0].1;
    var f1, g1 := Replacements[1].0, Replacements[1].1;
    var f2, g2 := Replacements[2].0, Replacements[2].1;
    var r := ReplaceAll(response, Replacements[k].0, Replacements[k].1);
    ReplaceAllLeading(response, Replacements[k].0, Replacements[k].1);
    assert r[..|Replacements[k].1|] == Replacements[k].1;
    assert r[0] == Replacements[k].1[0];
    assert response[..|Replacements[k].0|] == Replacements[k].0;
    if k == 0 {
      DifferentOpening(r, f1, 0);
      DifferentOpening(r, f2, 0);
      assert Soften(r, Replacements[2..]) == r;
      assert Soften(r, Replacements[1..]) == r;
    } else if k == 1 {
      assert response[4] == f1[4];
      DifferentOpening(response, f0, 4);
      DifferentOpening(r, f2, 0);
      assert Soften(r, Replacements[2..]) == r;
      assert Soften(response, Replacements[1..]) == Soften(r, Replacements[2..]);
    } else {
      assert response[0] == f2[0];
      DifferentOpening(response, f0, 0);
      DifferentOpening(response, f1, 0);
      assert Soften(response, Replacements[2..]) == r;
      assert Soften(response, Replacements[1..]) == r;
    }
  }

  /** The replacement loop keeps a question mark when no formal phrase holds one. */
  lemma {:induction false} SoftenKeepsQuestion(response: string, table: seq<(string, string)>)
    requires forall i :: 0 <= i < |table| ==> |table[i].0| > 0 && '?' !in table[i].0
    requires '?' in response
    ensures '?' in Soften(response, table)
    decreases |table|
  {
    if table != [] {
      if StartsWith(response, table[0].0) {
        ReplaceAllKeeps(response, table[0].0, table[0].1, '?');
      }
      var next := if StartsWith(response, table[0].0)
        then ReplaceAll(response, table[0].0, table[0].1) else response;
      SoftenKeepsQuestion(next, table[1..]);
    }
  }

  /**
    Humanizing is stable under a second run of its follow-up loop for the
    same query: an answer humanized on the regular path never receives a
    second follow-up.
   */
  lemma HumanizeTwiceAddsNoFollowUp(response: string, originalQuery: string)
    requires !IsBlank(response) && !IsFailureText(response)
    ensures var h := Humanize(response, originalQuery);
      AppendFollowUps(h, Lower(originalQuery), FollowUps) == h
  {
    var lq := Lower(originalQuery);
    var h := Humanize(response, originalQuery);
    var added := FollowUpFor(response, lq, FollowUps);
    HumanizeRegular(response, originalQuery);
    FollowUpsAsk();
    AppendFollowUpsAtMostOne(h, lq, FollowUps);
    if FirstMatch(lq, FollowUps).Some? {
      if Contains(response, "?") {
        ContainsChar(response, '?');
      } else {
        var sentence := FirstMatch(lq, FollowUps).value;
        var i :| 0 <= i < |FollowUps| && sentence == FollowUps[i].1;
        ContainsChar(sentence, '?');
        assert added == sentence;
      }
      assert '?' in response + added;
      SoftenKeepsQuestion(response + added, Replacements);
      ContainsChar(h, '?');
    }
    assert h + "" == h;
  }

  /** A blank answer, empty or whitespace only, gets the clarifying question. */
  lemma HumanizeBlank(response: string, originalQuery: string)
    requires IsBlank(response)
    ensures Humanize(response, originalQuery) == ClarifyText
  {
  }

  /**
    An answer mentioning "error" in any case is never passed through: a
    loyalty query gets the customer-ID prompt, any other query the
    more-information prefix over the capitalized answer without "error:".
   */
  lemma HumanizeFailure(response: string, originalQuery: string)
    requires !IsBlank(response) && IsFailureText(response)
    ensures Contains(Lower(originalQuery), "loyalty") ==>
      Humanize(response, originalQuery) == CustomerIdPrompt
    ensures !Contains(Lower(originalQuery), "loyalty") ==>
      Humanize(response, originalQuery)
        == MoreInfoPrefix + Capitalize(ReplaceAll(response, "error:", ""))
  {
  }

  /**
    Any other answer gets at most one follow-up, that of the first key among
    "order status", "product", "loyalty" in the lower-cased query and only
    when the answer has no "?", and then its formal opening softened.
   */
  lemma HumanizeRegular(response: string, originalQuery: string)
    requires !IsBlank(response) && !IsFailureText(response)
    ensures Humanize(response, originalQuery)
         == Soften(response + FollowUpFor(response, Lower(originalQuery), FollowUps), Replacements)
  {
    FollowUpsAsk();
    AppendFollowUpsAtMostOne(response, Lower(originalQuery), FollowUps);
  }

  /** The first matching key wins, in table order. */
  lemma FollowUpOrder(response: string, loweredQuery: string)
    requires !Contains(response, "?")
    ensures Contains(loweredQuery, "order status") ==>
      FollowUpFor(response, loweredQuery, FollowUps) == FollowUps[0].1
    ensures !Contains(loweredQuery, "order status") && Contains(loweredQuery, "product") ==>
      FollowUpFor(response, loweredQuery, FollowUps) == FollowUps[1].1
    ensures (!Contains(loweredQuery, "order status") && !Contains(loweredQuery, "product")
             && Contains(loweredQuery, "loyalty")) ==>
      FollowUpFor(response, loweredQuery, FollowUps) == FollowUps[2].1
    ensures (!Contains(loweredQuery, "order status") && !Contains(loweredQuery, "product")
             && !Contains(loweredQuery, "loyalty")) ==>
      FollowUpFor(response, loweredQuery, FollowUps) == ""
  {
    assert FollowUps[1..][1..] == FollowUps[2..];
    assert FollowUps[2..][1..] == [];
    var m2 := FirstMatch(loweredQuery, FollowUps[2..]);
    assert m2 == if Contains(loweredQuery, "loyalty") then Some(FollowUps[2].1) else None;
    var m1 := FirstMatch(loweredQuery, FollowUps[1..]);
    assert m1 == if Contains(loweredQuery, "product") then Some(FollowUps[1].1) else m2;
  }
}
