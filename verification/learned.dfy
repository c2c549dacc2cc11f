/** The learned-task store and the `/learn` operation that extends it. */
module Learned {
  import opened Wrappers
  import opened Text
  import opened Dict
  import opened Tone
  import opened Resolver

  /** Learned tasks: lower-cased task text to its steps, in insertion order. */
  type Store = Dict<seq<string>>

  /** `LEARNED_TASKS[task.lower()] = steps`: the lower-cased task now maps to
      `steps`, every other task keeps its entry, and no key is duplicated. */
  function Learn(store: Store, task: string, steps: seq<string>): (r: Store)
    ensures Lookup(r, Lower(task)) == Some(steps)
    ensures forall k :: k != Lower(task) ==> Lookup(r, k) == Lookup(store, k)
    ensures UniqueKeys(store) ==> UniqueKeys(r)
  {
    PutLookup(store, Lower(task), steps);
    PutUniqueKeys(store, Lower(task), steps);
    Put(store, Lower(task), steps)
  }

  /** Learning the same steps for the same task twice changes nothing the
      second time; tasks that differ only in ASCII letter case are the same task. */
  lemma LearnIdempotent(store: Store, task: string, again: string, steps: seq<string>)
    requires Lower(again) == Lower(task)
    ensures Learn(Learn(store, task, steps), again, steps) == Learn(store, task, steps)
  {
    PutIdempotent(store, Lower(task), steps);
  }

  /** A `/learn` request body; either field may be absent. */
  datatype LearnRequest = LearnRequest(task: Option<string>, steps: Option<seq<string>>)

  /** Why a `/learn` request fails: the first required field found missing. */
  datatype LearnError = MissingTask | MissingSteps

  /** The confirmation a successful `/learn` returns. */
  datatype LearnReply = LearnReply(status: string, task: string, steps: seq<string>)

  /** `/learn`: reads `task` (failing if absent), then `steps` (failing if
      absent), stores the steps under the lower-cased task and echoes both. A
      failed request leaves no trace, since the store is only returned on success. */
  function HandleLearn(store: Store, req: LearnRequest): (r: Result<(Store, LearnReply), LearnError>)
    ensures req.task.None? ==> r == Failure(MissingTask)
    ensures req.task.Some? && req.steps.None? ==> r == Failure(MissingSteps)
    ensures r.Success? <==> req.task.Some? && req.steps.Some?
    ensures r.Success? ==>
              && Lookup(r.value.0, Lower(req.task.value)) == Some(req.steps.value)
              && (forall k :: k != Lower(req.task.value) ==> Lookup(r.value.0, k) == Lookup(store, k))
              && r.value.1 == LearnReply("learned", Lower(req.task.value), req.steps.value)
  {
    match req.task
    case None => Failure(MissingTask)
    case Some(task) =>
      match req.steps
      case None => Failure(MissingSteps)
      case Some(steps) => Success((Learn(store, task, steps), LearnReply("learned", Lower(task), steps)))
  }

  /** After learning steps for a task, generating for any spelling of it that
      lower-cases to the same text returns exactly those steps, styled, whatever
      the templates, keywords, analysis or similarity would have given. */
  lemma LearnThenGenerate(store: Store, task: string, steps: seq<string>, req: GenerateRequest,
                          nlp: Analyzer, sim: Similarity)
    requires req.task.Some? && Lower(req.task.value) == Lower(task)
    ensures Generate(Learn(store, task, steps), req, nlp, sim) == StyleAll(steps, ToneFor(req.tone))
  {
    var learned := Learn(store, task, steps);
    assert Lower(req.task.GetOr("")) == Lower(task);
    assert HasKey(learned, Lower(task));
  }

  /** `learn` accepts an empty step list, and a later request for that task
      then gets no steps at all: the learned layer is the one way to an empty reply. */
  lemma LearnedEmptyListIsReturned(store: Store, task: string, req: GenerateRequest,
                                   nlp: Analyzer, sim: Similarity)
    requires req.task.Some? && Lower(req.task.value) == Lower(task)
    ensures Generate(Learn(store, task, []), req, nlp, sim) == []
  {
    LearnThenGenerate(store, task, [], req, nlp, sim);
  }
}
