/** The last-resort step generator: one step per verb-noun pair joined by a
    dependency edge, or a fixed four-step plan when there is no such pair. */
module Fallback {
  import opened Text
  import opened Nlp

  /** A position pair (verb, noun). */
  type Pair = (nat, nat)

  /** The positions `v`, `n` hold a verb and a noun that a dependency edge joins. */
  predicate IsPair(doc: Doc, v: nat, n: nat) {
    v < |doc| && n < |doc| && doc[v].pos == VERB && doc[n].pos == NOUN && Linked(doc, v, n)
  }

  /** Strictly increasing positions. */
  predicate Increasing(xs: seq<nat>) {
    forall a, b :: 0 <= a < b < |xs| ==> xs[a] < xs[b]
  }

  /** `p` comes before `q` when verbs are the outer and nouns the inner loop. */
  predicate Before(p: Pair, q: Pair) {
    p.0 < q.0 || (p.0 == q.0 && p.1 < q.1)
  }

  /** Strictly ordered by `Before`: no pair twice, in loop order. */
  predicate LexSorted(ps: seq<Pair>) {
    forall a, b :: 0 <= a < b < |ps| ==> Before(ps[a], ps[b])
  }

  /** Positions, from `from` on, of the tokens tagged `tag`
      (`[token for token in doc if token.pos_ == tag]`). */
  function Tagged(doc: Doc, tag: string, from: nat): (r: seq<nat>)
    requires from <= |doc|
    ensures forall j :: j in r <==> from <= j < |doc| && doc[j].pos == tag
    ensures Increasing(r)
    ensures forall a :: 0 <= a < |r| ==> from <= r[a] < |doc|
    decreases |doc| - from
  {
    if from == |doc| then []
    else (if doc[from].pos == tag then [from] else []) + Tagged(doc, tag, from + 1)
  }

  function Verbs(doc: Doc): seq<nat> {
    Tagged(doc, VERB, 0)
  }

  function Nouns(doc: Doc): seq<nat> {
    Tagged(doc, NOUN, 0)
  }

  /** The inner loop for the verb at `v`: the nouns it is linked to, in order. */
  function PairsWith(doc: Doc, v: nat, nouns: seq<nat>): (r: seq<Pair>)
    requires v < |doc|
    requires forall a :: 0 <= a < |nouns| ==> nouns[a] < |doc|
    ensures |r| <= |nouns|
  {
    if nouns == [] then []
    else (if Linked(doc, v, nouns[0]) then [(v, nouns[0])] else []) + PairsWith(doc, v, nouns[1..])
  }

  lemma {:induction false} PairsWithMember(doc: Doc, v: nat, nouns: seq<nat>, p: Pair)
    requires v < |doc|
    requires forall a :: 0 <= a < |nouns| ==> nouns[a] < |doc|
    ensures p in PairsWith(doc, v, nouns) <==> p.0 == v && p.1 in nouns && Linked(doc, v, p.1)
  {
    if nouns != [] {
      PairsWithMember(doc, v, nouns[1..], p);
    }
  }

  lemma {:induction false} PairsWithSorted(doc: Doc, v: nat, nouns: seq<nat>)
    requires v < |doc|
    requires forall a :: 0 <= a < |nouns| ==> nouns[a] < |doc|
    requires Increasing(nouns)
    ensures LexSorted(PairsWith(doc, v, nouns))
  {
    if nouns != [] {
      var rest := PairsWith(doc, v, nouns[1..]);
      PairsWithSorted(doc, v, nouns[1..]);
      forall b | 0 <= b < |rest|
        ensures rest[b].0 == v && nouns[0] < rest[b].1
      {
        PairsWithMember(doc, v, nouns[1..], rest[b]);
      }
    }
  }

  /** Both loops: for each verb in order, the nouns it is linked to. */
  function PairsOf(doc: Doc, verbs: seq<nat>, nouns: seq<nat>): (r: seq<Pair>)
    requires forall a :: 0 <= a < |verbs| ==> verbs[a] < |doc|
    requires forall a :: 0 <= a < |nouns| ==> nouns[a] < |doc|
    ensures |r| <= |verbs| * |nouns|
  {
    if verbs == [] then []
    else
      assert |verbs| * |nouns| == |nouns| + |verbs[1..]| * |nouns|;
      PairsWith(doc, verbs[0], nouns) + PairsOf(doc, verbs[1..], nouns)
  }

  lemma {:induction false} PairsOfMember(doc: Doc, verbs: seq<nat>, nouns: seq<nat>, p: Pair)
    requires forall a :: 0 <= a < |verbs| ==> verbs[a] < |doc|
    requires forall a :: 0 <= a < |nouns| ==> nouns[a] < |doc|
    ensures p in PairsOf(doc, verbs, nouns) <==>
              p.0 in verbs && p.1 in nouns && p.0 < |doc| && Linked(doc, p.0, p.1)
  {
    if verbs != [] {
      PairsWithMember(doc, verbs[0], nouns, p);
      PairsOfMember(doc, verbs[1..], nouns, p);
    }
  }

  lemma {:induction false} PairsOfSorted(doc: Doc, verbs: seq<nat>, nouns: seq<nat>)
    requires forall a :: 0 <= a < |verbs| ==> verbs[a] < |doc|
    requires forall a :: 0 <= a < |nouns| ==> nouns[a] < |doc|
    requires Increasing(verbs) && Increasing(nouns)
    ensures LexSorted(PairsOf(doc, verbs, nouns))
  {
    if verbs != [] {
      var first := PairsWith(doc, verbs[0], nouns);
      var rest := PairsOf(doc, verbs[1..], nouns);
      PairsWithSorted(doc, verbs[0], nouns);
      PairsOfSorted(doc, verbs[1..], nouns);
      forall a | 0 <= a < |first|
        ensures first[a].0 == verbs[0]
      {
        PairsWithMember(doc, verbs[0], nouns, first[a]);
      }
      forall b | 0 <= b < |rest|
        ensures verbs[0] < rest[b].0
      {
        PairsOfMember(doc, verbs[1..], nouns, rest[b]);
      }
    }
  }

  /** Every linked verb-noun pair of the text, once each, verbs outer and nouns inner. */
  function Pairs(doc: Doc): (r: seq<Pair>)
    ensures forall p :: p in r <==> IsPair(doc, p.0, p.1)
    ensures LexSorted(r)
    ensures |r| <= |Verbs(doc)| * |Nouns(doc)|
  {
    var verbs := Verbs(doc);
    var nouns := Nouns(doc);
    var r := PairsOf(doc, verbs, nouns);
    PairsOfSorted(doc, verbs, nouns);
    forall p ensures p in r <==> IsPair(doc, p.0, p.1) {
      PairsOfMember(doc, verbs, nouns, p);
    }
    r
  }

  /** The step for a linked pair: the verb's lemma with its first letter
      upper-cased and every later letter lower-cased, then " the ", then the
      noun exactly as written, then a full stop. */
  function PairStep(doc: Doc, p: Pair): (r: string)
    requires p.0 < |doc| && p.1 < |doc|
    ensures var verb, noun := doc[p.0].lemmaForm, doc[p.1].text;
            && |r| == |verb| + 5 + |noun| + 1
            && Lower(r[..|verb|]) == Lower(verb)
            && (|verb| > 0 ==> r[0] == UpperChar(verb[0]) && !IsLower(r[0]))
            && (forall i :: 0 < i < |verb| ==> r[i] == LowerChar(verb[i]))
            && r[|verb|..|verb| + 5] == " the "
            && r[|verb| + 5..|r| - 1] == noun
            && r[|r| - 1] == '.'
  {
    var verb := Capitalize(doc[p.0].lemmaForm);
    LowerCapitalize(doc[p.0].lemmaForm);
    var r := verb + " the " + doc[p.1].text + ".";
    assert r[..|verb|] == verb;
    r
  }

  /** The opening step of the fixed plan. */
  function UnderstandStep(task: string): string {
    "Start by understanding how to '" + task + "'."
  }

  /** The fixed plan used when the text has no linked verb-noun pair: four
      steps, of which only the first depends on the task, quoting it whole
      between single quotes. */
  function FixedPlan(task: string): (r: seq<string>)
    ensures |r| == 4
    ensures |r[0]| == |task| + 33
    ensures r[0][30] == '\'' && r[0][31..31 + |task|] == task && r[0][31 + |task|..] == "'."
  {
    [UnderstandStep(task),
     "Break it into smaller actions.",
     "Execute each action step-by-step.",
     "Review and finish up."]
  }

  /** Different tasks get different plans, and they differ only in the first
      step. */
  lemma FixedPlanQuotesTask(a: string, b: string)
    ensures FixedPlan(a)[1..] == FixedPlan(b)[1..]
    ensures FixedPlan(a) == FixedPlan(b) <==> a == b
  {
    if FixedPlan(a) == FixedPlan(b) {
      assert |a| == |b|;
      assert a == FixedPlan(a)[0][31..31 + |a|] == FixedPlan(b)[0][31..31 + |b|] == b;
    }
  }

  /** One step per linked pair, in pair order. */
  function PairSteps(doc: Doc, ps: seq<Pair>): (r: seq<string>)
    requires forall p :: p in ps ==> p.0 < |doc| && p.1 < |doc|
    ensures |r| == |ps|
    ensures forall i :: 0 <= i < |ps| ==> r[i] == PairStep(doc, ps[i])
  {
    if ps == [] then [] else [PairStep(doc, ps[0])] + PairSteps(doc, ps[1..])
  }

  /** `fallback_steps(task)` on the analysis `doc` of `task`. */
  function FallbackSteps(task: string, doc: Doc): (r: seq<string>)
    ensures |r| > 0
    ensures (exists v: nat, n: nat :: IsPair(doc, v, n)) ==>
              |r| == |Pairs(doc)| <= |Verbs(doc)| * |Nouns(doc)|
              && forall i :: 0 <= i < |r| ==> r[i] == PairStep(doc, Pairs(doc)[i])
    ensures (forall v: nat, n: nat :: !IsPair(doc, v, n)) ==>
              |r| == 4 && r[0] == UnderstandStep(task) && r == FixedPlan(task)
  {
    var ps := Pairs(doc);
    var steps := PairSteps(doc, ps);
    if steps == [] then
      assert forall v: nat, n: nat :: !IsPair(doc, v, n) by {
        forall v: nat, n: nat ensures !IsPair(doc, v, n) {
          assert (v, n) !in ps;
        }
      }
      FixedPlan(task)
    else
      assert IsPair(doc, ps[0].0, ps[0].1);
      steps
  }
}
