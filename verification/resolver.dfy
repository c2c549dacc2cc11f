/** Step resolution: learned store, then templates by similarity, then generic
    flows by keyword, then the fallback generator; and the styled reply. */
module Resolver {
  import opened Wrappers
  import opened Text
  import opened Dict
  import opened Nlp
  import opened Knowledge
  import opened Tone
  import opened Fallback
  import opened Generic

  /** The toolkit's analysis of a text. */
  type Analyzer = string -> Doc

  /** The toolkit's similarity of a template phrase (first) to the task (second). */
  type Similarity = (string, string) -> real

  /** A template is accepted only when its similarity is strictly above this. */
  const Threshold: real := 0.7

  /** State of the template loop: the best entry so far (`best_match`, `None`
      before any) and its similarity (`best_score`, starting at 0.0). */
  datatype Choice = Choice(best: Option<nat>, score: real)

  function Score(table: Dict<seq<string>>, task: string, sim: Similarity, j: nat): real
    requires j < |table|
  {
    sim(table[j].key, task)
  }

  /** Entry `j` attains the maximum similarity among the first `n` entries, and
      no earlier entry attains it. */
  ghost predicate FirstMax(table: Dict<seq<string>>, task: string, sim: Similarity, n: nat, j: int)
    requires n <= |table|
  {
    0 <= j < n
    && (forall i :: 0 <= i < n ==> Score(table, task, sim, i) <= Score(table, task, sim, j))
    && (forall i :: 0 <= i < j ==> Score(table, task, sim, i) < Score(table, task, sim, j))
  }

  /** The template loop after its first `n` iterations: a later entry replaces
      the best one only when its similarity is strictly greater. */
  function BestAmong(table: Dict<seq<string>>, task: string, sim: Similarity, n: nat): (c: Choice)
    requires n <= |table|
    ensures c.best.None? <==> forall i :: 0 <= i < n ==> Score(table, task, sim, i) <= 0.0
    ensures c.best.None? ==> c.score == 0.0
    ensures c.best.Some? ==> FirstMax(table, task, sim, n, c.best.value)
                             && c.score == Score(table, task, sim, c.best.value) > 0.0
  {
    if n == 0 then Choice(None, 0.0)
    else
      var prev := BestAmong(table, task, sim, n - 1);
      var s := Score(table, task, sim, n - 1);
      if s > prev.score then Choice(Some(n - 1), s) else prev
  }

  /** The template step: the first best-scoring template's steps when its
      similarity is above the threshold, else nothing. */
  function MatchTemplate(task: string, sim: Similarity): (r: Option<seq<string>>)
    ensures r.Some? <==> exists j :: 0 <= j < |Templates| && Score(Templates, task, sim, j) > Threshold
    ensures r.Some? ==> exists j :: FirstMax(Templates, task, sim, |Templates|, j)
                                    && Score(Templates, task, sim, j) > Threshold
                                    && r.value == Templates[j].value
    ensures r.Some? ==> |r.value| > 0
  {
    var c := BestAmong(Templates, task, sim, |Templates|);
    if c.score > Threshold then Some(Templates[c.best.value].value) else None
  }

  /** Python truthiness of the `steps` variable: present and not empty. */
  predicate Truthy(steps: Option<seq<string>>) {
    steps.Some? && steps.value != []
  }

  /** The steps for an already lower-cased task, before styling. */
  function Resolve(learned: Dict<seq<string>>, task: string, nlp: Analyzer, sim: Similarity): (r: seq<string>)
    ensures HasKey(learned, task) ==> Lookup(learned, task) == Some(r)
    ensures !HasKey(learned, task) ==> |r| > 0
    ensures !HasKey(learned, task)
            && (exists j :: 0 <= j < |Templates| && Score(Templates, task, sim, j) > Threshold)
            ==> exists j :: FirstMax(Templates, task, sim, |Templates|, j) && r == Templates[j].value
    ensures !HasKey(learned, task)
            && (forall j :: 0 <= j < |Templates| ==> Score(Templates, task, sim, j) <= Threshold)
            && (exists j :: 0 <= j < |GenericFlows| && Mentions(nlp(task), GenericFlows[j].key))
            ==> exists j :: FirstMention(GenericFlows, nlp(task), j) && r == GenericFlows[j].value
    ensures !HasKey(learned, task)
            && (forall j :: 0 <= j < |Templates| ==> Score(Templates, task, sim, j) <= Threshold)
            && (forall j :: 0 <= j < |GenericFlows| ==> !Mentions(nlp(task), GenericFlows[j].key))
            ==> r == FallbackSteps(task, nlp(task))
  {
    match Lookup(learned, task)
    case Some(stored) => stored
    case None =>
      var doc := nlp(task);
      var fromTemplate := MatchTemplate(task, sim);
      var steps := if Truthy(fromTemplate) then fromTemplate else MatchGeneric(doc);
      if Truthy(steps) then steps.value else FallbackSteps(task, doc)
  }

  /** A `/generate` request body; either field may be absent. */
  datatype GenerateRequest = GenerateRequest(task: Option<string>, tone: Option<string>)

  /** The `subtasks` of the `/generate` reply: the task (empty when absent) is
      lower-cased and resolved, and every step is styled in the requested tone. */
  function Generate(learned: Dict<seq<string>>, req: GenerateRequest, nlp: Analyzer, sim: Similarity): (r: seq<string>)
    ensures var task := Lower(req.task.GetOr(""));
            var steps := Resolve(learned, task, nlp, sim);
            && |r| == |steps|
            && (forall i :: 0 <= i < |r| ==> r[i] == Apply(ToneFor(req.tone), steps[i]))
            && (!HasKey(learned, task) ==> |r| > 0)
  {
    StyleAll(Resolve(learned, Lower(req.task.GetOr("")), nlp, sim), ToneFor(req.tone))
  }

  /** A learned hit does not depend on the toolkit at all: any analysis and any
      similarity give the same steps. */
  lemma LearnedHitIgnoresToolkit(learned: Dict<seq<string>>, task: string,
                                 nlp1: Analyzer, sim1: Similarity, nlp2: Analyzer, sim2: Similarity)
    requires HasKey(learned, task)
    ensures Resolve(learned, task, nlp1, sim1) == Resolve(learned, task, nlp2, sim2)
  {
  }

  /** At most one entry is the first to attain the maximum. */
  lemma FirstMaxUnique(table: Dict<seq<string>>, task: string, sim: Similarity, n: nat, i: int, j: int)
    requires n <= |table|
    requires FirstMax(table, task, sim, n, i) && FirstMax(table, task, sim, n, j)
    ensures i == j
  {
    assert Score(table, task, sim, i) == Score(table, task, sim, j);
  }

  /** When nothing is learned for the task, the first template attaining the
      maximum similarity, if that similarity is above the threshold, supplies
      the steps. */
  lemma TemplateWins(learned: Dict<seq<string>>, task: string, nlp: Analyzer, sim: Similarity, j: nat)
    requires !HasKey(learned, task)
    requires FirstMax(Templates, task, sim, |Templates|, j) && Score(Templates, task, sim, j) > Threshold
    ensures Resolve(learned, task, nlp, sim) == Templates[j].value
  {
    var r := Resolve(learned, task, nlp, sim);
    var i :| FirstMax(Templates, task, sim, |Templates|, i) && r == Templates[i].value;
    FirstMaxUnique(Templates, task, sim, |Templates|, i, j);
  }

  /** A template whose similarity is not positive is never the one returned. */
  lemma NonPositiveNeverChosen(task: string, sim: Similarity, j: nat)
    requires j < |Templates| && Score(Templates, task, sim, j) <= 0.0
    ensures MatchTemplate(task, sim) != Some(Templates[j].value)
  {
  }
}
