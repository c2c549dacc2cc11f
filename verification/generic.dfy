/** Keyword matching against the generic-flow table. */
module Generic {
  import opened Wrappers
  import opened Text
  import opened Dict
  import opened Nlp
  import opened Knowledge

  /** Some token's lemma contains `keyword` (the source's
      `any(keyword in t.lemma_ for t in doc)`), stated with `Occurs`. */
  ghost predicate Mentions(doc: Doc, keyword: string) {
    exists t :: 0 <= t < |doc| && Occurs(keyword, doc[t].lemmaForm)
  }

  /** The `any(...)` scan over the tokens, using the computable substring test. */
  function AnyLemmaContains(doc: Doc, keyword: string): (r: bool)
    ensures r <==> Mentions(doc, keyword)
  {
    if doc == [] then false
    else
      ContainsOccurs(doc[0].lemmaForm, keyword);
      assert forall t :: 0 < t < |doc| ==> doc[t] == doc[1..][t - 1];
      Contains(doc[0].lemmaForm, keyword) || AnyLemmaContains(doc[1..], keyword)
  }

  /** Entry `j` is the first of `table`, in table order, whose keyword `doc` mentions. */
  ghost predicate FirstMention(table: Dict<seq<string>>, doc: Doc, j: int) {
    0 <= j < |table| && Mentions(doc, table[j].key)
    && forall i :: 0 <= i < j ==> !Mentions(doc, table[i].key)
  }

  /** The loop of `match_generic` over an arbitrary table: the flow of the first
      keyword some lemma contains, or `None`. */
  function MatchIn(table: Dict<seq<string>>, doc: Doc): (r: Option<seq<string>>)
    ensures r.None? <==> forall j :: 0 <= j < |table| ==> !Mentions(doc, table[j].key)
    ensures r.Some? ==> exists j :: FirstMention(table, doc, j) && r.value == table[j].value
  {
    if table == [] then None
    else if AnyLemmaContains(doc, table[0].key) then
      assert FirstMention(table, doc, 0);
      Some(table[0].value)
    else
      var r := MatchIn(table[1..], doc);
      assert forall j :: 0 < j < |table| ==> table[j] == table[1..][j - 1];
      assert r.Some? ==> exists j :: FirstMention(table, doc, j) && r.value == table[j].value by {
        if r.Some? {
          var j :| FirstMention(table[1..], doc, j) && r.value == table[1..][j].value;
          assert FirstMention(table, doc, j + 1);
        }
      }
      r
  }

  /** `match_generic(task)` on the analysis `doc` of the task: the cooking flow
      when a lemma contains "cook", else the cleaning flow when one contains
      "clean", else the studying flow when one contains "study", else nothing. */
  function MatchGeneric(doc: Doc): (r: Option<seq<string>>)
    ensures Mentions(doc, "cook") ==> r == Some(GenericFlows[0].value)
    ensures !Mentions(doc, "cook") && Mentions(doc, "clean") ==> r == Some(GenericFlows[1].value)
    ensures !Mentions(doc, "cook") && !Mentions(doc, "clean") && Mentions(doc, "study")
            ==> r == Some(GenericFlows[2].value)
    ensures !Mentions(doc, "cook") && !Mentions(doc, "clean") && !Mentions(doc, "study")
            ==> r == None
    ensures r.Some? ==> |r.value| > 0
  {
    var r := MatchIn(GenericFlows, doc);
    assert |GenericFlows| == 3;
    assert GenericFlows[0].key == "cook" && GenericFlows[1].key == "clean" && GenericFlows[2].key == "study";
    assert forall j :: FirstMention(GenericFlows, doc, j) ==>
      (j == 0 <==> Mentions(doc, "cook"))
      && (j == 1 <==> !Mentions(doc, "cook") && Mentions(doc, "clean"))
      && (j == 2 <==> !Mentions(doc, "cook") && !Mentions(doc, "clean") && Mentions(doc, "study"));
    r
  }

  /** A lemma matches a keyword it merely contains: "cooking" selects the cooking flow. */
  lemma CookingSelectsCook(doc: Doc, t: nat)
    requires t < |doc| && doc[t].lemmaForm == "cooking"
    ensures MatchGeneric(doc) == Some(GenericFlows[0].value)
  {
    assert OccursAt("cook", doc[t].lemmaForm, 0);
  }
}
