# Task-breakdown service: step resolution, in Dafny

This project models the core of a small web service that turns a task
description ("make a pie") into an ordered list of steps, styled in a chosen
tone. The core is a pure function from (task text, tone) to a list of styled
step strings, plus the `learn` update of the learned-task map. Everything lives
in `app.py`.

Resolution tries four sources in strict order and stops at the first that
answers:

1. **Learned tasks.** The lower-cased task is looked up in the map that `learn` fills.
2. **Templates.** Every template phrase is scored against the task by the language
   toolkit's similarity. The first phrase with the highest score wins. Its
   steps are used only when that score is strictly above 0.7.
3. **Generic flows.** The first keyword (`cook`, `clean`, `study`, in table order)
   contained in some token's lemma selects its flow.
4. **Fallback.** One step "<Verb-lemma> the <noun>." is made for each verb–noun
   pair joined by a dependency edge. Verbs form the outer loop and nouns the
   inner one. When there is no such pair, a fixed four-step plan quoting the
   task is used.

The chosen list is then styled step by step with the tone's transform. The
tone name is lower-cased and defaults to `academic`. An unknown name leaves
steps unchanged.

Modules, one per component:

- `Wrappers`: `Option` (Python's `None` and absent JSON fields) and `Result`.
- `Text`: ASCII `lower()`, `capitalize()`, and the substring test `k in s`.
- `Dict`: Python dictionaries as sequences of entries, so insertion order is explicit.
- `Nlp`: the token record the toolkit provides (`text`, lemma, `pos`, `head`, `children`).
- `Knowledge`: the `TEMPLATES` and `GENERIC_FLOWS` tables.
- `Tone`: the tone table, the transforms, and styling of a whole list.
- `Fallback`: `fallback_steps`.
- `Generic`: `match_generic`.
- `Resolver`: the template loop, resolution, and the `/generate` reply.
- `Learned`: `learn` and the `/learn` handler.
- `Scenarios`: end-to-end behaviour on four concrete requests.

The language toolkit is an oracle passed in as parameters:

- `nlp: string -> Doc` is the analysis of a text.
- `sim: (string, string) -> real` is the similarity of a template phrase to the task.

Similarity is a `real`, and only its strict comparisons with 0.0, 0.7 and the
best score so far matter.

Four consequences of `app.py` that are easy to miss:

- A template is accepted only when its similarity is strictly above 0.7
  (app.py:129). A score of exactly 0.7 is rejected.
- The fixed fallback plan quotes the lower-cased task (app.py:111, 94),
  because the handler lower-cases the task before resolving it.
- A learned `[]` is returned as it is (app.py:117-118), because `learn` stores
  any list (app.py:150-151). So resolution gives at least one step only for a
  task that is not learned (`Learned.LearnedEmptyListIsReturned`).
- The pirate, girlypop and hype suffixes are the characters app.py:75, 76 and 79
  actually hold. Those lines carry emoji whose UTF-8 bytes were re-read as
  Windows-1252, so the pirate suffix, for example, starts U+00F0 U+0178 U+00B4.
  The service sends these characters, and the constants in `Tone` are exactly
  them, not the emoji they stand for.

## Model

| member | source | states |
|---|---|---|
| `Text.Lower` | app.py:111 | Lower-casing keeps the length, maps each character on its own (ASCII letters to lower case, all else unchanged), and leaves no upper-case ASCII letter. |
| `Text.LowerIdempotent` | app.py:149 | Lower-casing an already lower-cased key changes nothing. So the key `learn` stores is found again by a lookup that lower-cases its input. |
| `Text.Capitalize` | app.py:92 | `capitalize()` keeps the length. The first character is upper-cased and is never a lower-case letter afterwards. Every later character is lower-cased on its own. |
| `Text.LowerCapitalize` | app.py:92 | Capitalising changes letter case only: ignoring case, the capitalised text equals the original. |
| `Text.CapitalizeIdempotent` | app.py:92 | Capitalising an already capitalised text changes nothing. |
| `Text.ContainsOccurs` | app.py:104 | The scanning substring test is true exactly when the keyword occurs as a contiguous block at some position of the lemma. |
| `Dict.Lookup` | app.py:117-118 | A lookup finds a value exactly when the key is present. The value is the one stored at the first entry with that key. |
| `Dict.Put` | app.py:151 | Assignment keeps every entry's key and position. It leaves entries with other keys untouched and appends a new key at the end. |
| `Dict.PutLookup` | app.py:151 | After `d[k] = v`, `k` maps to `v` and every other key maps to what it did before. |
| `Dict.PutUniqueKeys` | app.py:151 | Assignment never creates a duplicate key. |
| `Dict.PutIdempotent` | app.py:151 | Assigning the same value to the same key twice gives the same dictionary as once, entry order included. |
| `Tone.Apply` | app.py:74-81 | Each tone puts its fixed prefix before the step and its fixed suffix after it. It keeps the step itself, lower-cased for slang. The identity tone returns the step unchanged. |
| `Tone.UnstyleApply` | app.py:74-81 | Stripping a tone's prefix and suffix from a styled step recovers the step. For slang it recovers the lower-cased step. |
| `Tone.ToneForKnownName` | app.py:141 | Each of the six table names selects its own transform. |
| `Tone.ToneNamedUnknownIsIdentity` | app.py:141 | A name missing from the table selects the identity, and only such a name does. A name in the table selects that entry's transform. |
| `Tone.ToneFor` | app.py:112 | A request without a tone gets the academic tone. Otherwise the name is lower-cased: a name in the table selects that entry's tone, and any other name selects the identity. |
| `Tone.ToneNamed` | app.py:141 | A key in the table selects the tone stored under it. A key not in the table selects the identity. |
| `Tone.ToneForIgnoresCase` | app.py:112 | Tone names that lower-case to the same text select the same transform. |
| `Tone.StyleAll` | app.py:142 | Styling keeps the number of steps, and element i of the result is the transform applied to step i. |
| `Fallback.Tagged` | app.py:86-87 | The verb (noun) list is exactly the positions of tokens with that tag, in strictly increasing token order. |
| `Fallback.PairsWith` | app.py:90-92 | The inner loop yields at most one pair per noun. |
| `Fallback.PairsOf` | app.py:89-92 | The nested loops yield at most (verbs × nouns) pairs. |
| `Fallback.PairsOfMember` | app.py:89-92 | A pair is produced exactly when its verb is in the verb list, its noun is in the noun list, and the noun's head is the verb or the noun is one of the verb's children. |
| `Fallback.PairsOfSorted` | app.py:89-92 | The pairs come verbs-outer, nouns-inner, strictly ordered, so no pair appears twice. |
| `Fallback.Pairs` | app.py:86-92 | The pairs of a text are exactly its linked verb–noun pairs, once each, in loop order, and there are at most \|verbs\|·\|nouns\| of them. |
| `Fallback.PairStep` | app.py:92 | A pair's step is the verb's lemma with its first letter upper-cased and every later letter lower-cased, then " the ", then the noun exactly as written, then a full stop. |
| `Fallback.FixedPlan` | app.py:93-97 | The plan has four steps. The first is the task itself, quoted whole between single quotes. |
| `Fallback.FixedPlanQuotesTask` | app.py:93-97 | Only the first step depends on the task, and different tasks get different plans. |
| `Fallback.PairSteps` | app.py:92 | One step per pair, in pair order: the capitalised verb lemma, " the ", the noun text, and ".". |
| `Fallback.FallbackSteps` | app.py:84-98 | The fallback is never empty. With a linked pair it is one step per pair in pair order. With none it is exactly the four fixed steps, the first quoting the task text. |
| `Generic.AnyLemmaContains` | app.py:104 | The scan over tokens is true exactly when some token's lemma contains the keyword. |
| `Generic.MatchIn` | app.py:101-106 | The matcher returns nothing exactly when no keyword occurs in any lemma. Otherwise it returns the flow of the first keyword, in table order, that occurs. |
| `Generic.MatchGeneric` | app.py:101-106 | On the real table: "cook" selects the cooking flow. Otherwise "clean" selects the cleaning flow, and otherwise "study" the studying flow. With none of them the result is nothing. Any flow returned is non-empty. |
| `Generic.CookingSelectsCook` | app.py:104 | A lemma that only contains a keyword ("cooking") still selects that keyword's flow. |
| `Resolver.BestAmong` | app.py:122-128 | After the loop, no best template exists exactly when every similarity is ≤ 0, and the score is then 0.0. Otherwise the best template is the first one attaining the maximum similarity, which is positive. |
| `Resolver.MatchTemplate` | app.py:122-130 | The template step answers exactly when some template scores above 0.7. Its answer is the steps of the first best-scoring template, which are non-empty. |
| `Resolver.TemplateWins` | app.py:119-130 | For an unlearned task, the first best-scoring template, when above 0.7, supplies the resolved steps. |
| `Resolver.NonPositiveNeverChosen` | app.py:123-129 | A template whose similarity is ≤ 0 is never the one returned. |
| `Resolver.Resolve` | app.py:114-138 | A learned key returns its stored list as it is. An unlearned task gets a non-empty list. The template answers first, when one scores above 0.7. Otherwise the first mentioned generic keyword answers. Otherwise the fallback does. |
| `Resolver.LearnedHitIgnoresToolkit` | app.py:117-118 | For a learned key the result does not depend on the analysis or the similarity at all. |
| `Resolver.Generate` | app.py:111-142 | The reply styles every resolved step of the lower-cased task (empty when absent) in the requested tone, one output per step, in order. It is non-empty unless the task is learned. |
| `Learned.Learn` | app.py:149-151 | After `learn`, the lower-cased task maps to the given steps. Every other key keeps its entry, and keys stay unique. |
| `Learned.LearnIdempotent` | app.py:149-151 | Learning the same steps twice for the same task (in any letter case) is the same as learning them once. |
| `Learned.HandleLearn` | app.py:147-153 | A missing task fails with `MissingTask` before the steps are looked at. Missing steps fail with `MissingSteps`. Otherwise the store is updated and the reply echoes the lower-cased task and the steps. |
| `Learned.LearnThenGenerate` | app.py:117-118 | After learning steps for a task, a request for any spelling that lower-cases to it returns exactly those steps, styled, whatever templates or keywords would match. |
| `Learned.LearnedEmptyListIsReturned` | app.py:150-151 | A learned empty list yields an empty reply. |
| `Scenarios.PieInAcademicTone` | app.py:16-25 | "make a pie" in the academic tone, unlearned and scoring above 0.7 against itself, gives the eight pie steps prefixed "Academic step: ". It wins even a tie with the exam template. |
| `Scenarios.ExamInPirateTone` | app.py:26-34 | "study for an exam" in the pirate tone gives the seven exam steps between "Arrr! " and the pirate suffix. |
| `Scenarios.LearnedCarWashInHypeTone` | app.py:79 | Learning three car-wash steps and then asking for them in the hype tone gives those three steps, hyped. |
| `Scenarios.UnrecognisedResolvesToPlan` | app.py:132-138 | With no learned entry, no template above 0.7, no keyword and no linked pair, resolution gives the fixed plan. |
| `Scenarios.UnrecognisedTaskFallsBack` | app.py:93-97 | Such a task without a tone gives the four fixed steps in the academic tone, the first quoting the lower-cased task. |

## Left out

- HTTP plumbing: routing, `request.get_json`, `jsonify`, CORS and `app.run`. They are framework glue. Request bodies are records with optional fields, and replies are values.
- Loading and saving `learned_tasks.json`: the store is a value given to the model, and `learn` returns the new store. File contents, JSON serialisation and write failures are not modelled.
- The language toolkit's tokenising, tagging, lemmatising, parsing and vector similarity: the analysis and the similarity are oracle parameters. The source analyses the task up to three times. The model analyses it once, because the analysis is deterministic.
- Floating point: similarity is a `real`, so NaN and rounding are not modelled.
- `Text.Lower`: ASCII letters only. Python's `lower()` also folds non-ASCII letters.
- `Text.Capitalize`: ASCII letters only. Python title-cases the first character and lower-cases the rest over all of Unicode.
- JSON values of unexpected types: a `task` that is not a string, or `steps` that is not a list of strings. The source would fail or iterate over a string's characters. Fields are either absent or well-typed here.
- Keys with upper-case letters in a hand-edited `learned_tasks.json` can never be hit, because the task is always lower-cased. The model takes the store as given and does not single them out.
- Concurrent `/learn` requests: races on the shared map and the file have no sequential meaning.
- `TEMPLATES[best_match]` looks the template up by key. The model uses the winning entry's position, which is the same thing because the template keys are distinct.
