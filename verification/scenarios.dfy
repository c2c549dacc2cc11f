/** End-to-end behaviour of `/generate` and `/learn` on four concrete
    requests. The toolkit's answers for the texts involved are stated as
    preconditions. */
module Scenarios {
  import opened Wrappers
  import opened Text
  import opened Dict
  import opened Nlp
  import opened Knowledge
  import opened Tone
  import opened Fallback
  import opened Generic
  import opened Resolver
  import opened Learned

  /** `Generate` styles whatever `Resolve` gives for the lower-cased task. */
  lemma GenerateOfResolved(learned: Store, req: GenerateRequest, nlp: Analyzer, sim: Similarity,
                           steps: seq<string>, t: Tone)
    requires Resolve(learned, Lower(req.task.GetOr("")), nlp, sim) == steps
    requires ToneFor(req.tone) == t
    ensures Generate(learned, req, nlp, sim) == StyleAll(steps, t)
  {
  }

  /** The template phrases are already lower-case. */
  lemma PiePhraseLowered()
    ensures Lower("make a pie") == "make a pie"
  {
    LowerOfLowered("make a pie");
  }

  lemma ExamPhraseLowered()
    ensures Lower("study for an exam") == "study for an exam"
  {
    LowerOfLowered("study for an exam");
  }

  /** The tone names of the examples select their tones. */
  lemma ExampleToneNames()
    ensures ToneFor(Some("academic")) == Academic
    ensures ToneFor(Some("pirate")) == Pirate
    ensures ToneFor(Some("hype")) == Hype
  {
    ToneForKnownName(2);
    ToneForKnownName(0);
    ToneForKnownName(4);
  }

  /** Styled academically, every step gets the academic prefix. */
  lemma AcademicSteps(steps: seq<string>)
    ensures |StyleAll(steps, Academic)| == |steps|
    ensures forall i :: 0 <= i < |steps| ==> StyleAll(steps, Academic)[i] == "Academic step: " + steps[i]
  {
  }

  /** Styled as a pirate, every step gets the pirate prefix and the flag. */
  lemma PirateSteps(steps: seq<string>)
    ensures |StyleAll(steps, Pirate)| == |steps|
    ensures forall i :: 0 <= i < |steps| ==> StyleAll(steps, Pirate)[i] == "Arrr! " + steps[i] + " " + PirateFlag
  {
  }

  /** The template chosen for a task equal to one of the template phrases,
      given the similarities the toolkit reports. */
  lemma PieChosen(learned: Store, nlp: Analyzer, sim: Similarity)
    requires !HasKey(learned, "make a pie")
    requires sim("make a pie", "make a pie") > Threshold
    requires sim("study for an exam", "make a pie") <= sim("make a pie", "make a pie")
    ensures Resolve(learned, "make a pie", nlp, sim) == Templates[0].value
  {
    assert Templates[0].key == "make a pie" && Templates[1].key == "study for an exam";
    TemplateWins(learned, "make a pie", nlp, sim, 0);
  }

  lemma ExamChosen(learned: Store, nlp: Analyzer, sim: Similarity)
    requires !HasKey(learned, "study for an exam")
    requires sim("study for an exam", "study for an exam") > Threshold
    requires sim("make a pie", "study for an exam") < sim("study for an exam", "study for an exam")
    ensures Resolve(learned, "study for an exam", nlp, sim) == Templates[1].value
  {
    assert Templates[0].key == "make a pie" && Templates[1].key == "study for an exam";
    TemplateWins(learned, "study for an exam", nlp, sim, 1);
  }

  lemma PieGenerated(learned: Store, nlp: Analyzer, sim: Similarity)
    requires !HasKey(learned, "make a pie")
    requires sim("make a pie", "make a pie") > Threshold
    requires sim("study for an exam", "make a pie") <= sim("make a pie", "make a pie")
    ensures Generate(learned, GenerateRequest(Some("make a pie"), Some("academic")), nlp, sim)
            == StyleAll(Templates[0].value, Academic)
  {
    PiePhraseLowered();
    ExampleToneNames();
    PieChosen(learned, nlp, sim);
    GenerateOfResolved(learned, GenerateRequest(Some("make a pie"), Some("academic")), nlp, sim,
                       Templates[0].value, Academic);
  }

  lemma ExamGenerated(learned: Store, nlp: Analyzer, sim: Similarity)
    requires !HasKey(learned, "study for an exam")
    requires sim("study for an exam", "study for an exam") > Threshold
    requires sim("make a pie", "study for an exam") < sim("study for an exam", "study for an exam")
    ensures Generate(learned, GenerateRequest(Some("study for an exam"), Some("pirate")), nlp, sim)
            == StyleAll(Templates[1].value, Pirate)
  {
    ExamPhraseLowered();
    ExampleToneNames();
    ExamChosen(learned, nlp, sim);
    GenerateOfResolved(learned, GenerateRequest(Some("study for an exam"), Some("pirate")), nlp, sim,
                       Templates[1].value, Pirate);
  }

  /** "make a pie" in the academic tone, not learned: the eight pie steps, each
      prefixed. The pie template also wins a tie with the exam template. */
  lemma PieInAcademicTone(learned: Store, nlp: Analyzer, sim: Similarity)
    requires !HasKey(learned, "make a pie")
    requires sim("make a pie", "make a pie") > Threshold
    requires sim("study for an exam", "make a pie") <= sim("make a pie", "make a pie")
    ensures var r := Generate(learned, GenerateRequest(Some("make a pie"), Some("academic")), nlp, sim);
            |r| == 8 && forall i :: 0 <= i < 8 ==> r[i] == "Academic step: " + Templates[0].value[i]
  {
    PieGenerated(learned, nlp, sim);
    AcademicSteps(Templates[0].value);
  }

  /** "study for an exam" in the pirate tone, not learned: the seven exam steps,
      each between the pirate prefix and the flag. */
  lemma ExamInPirateTone(learned: Store, nlp: Analyzer, sim: Similarity)
    requires !HasKey(learned, "study for an exam")
    requires sim("study for an exam", "study for an exam") > Threshold
    requires sim("make a pie", "study for an exam") < sim("study for an exam", "study for an exam")
    ensures var r := Generate(learned, GenerateRequest(Some("study for an exam"), Some("pirate")), nlp, sim);
            |r| == 7 && forall i :: 0 <= i < 7 ==> r[i] == "Arrr! " + Templates[1].value[i] + " " + PirateFlag
  {
    ExamGenerated(learned, nlp, sim);
    PirateSteps(Templates[1].value);
  }

  /** Styled in the hype tone, every step gets the hype prefix and suffix. */
  lemma HypeSteps(steps: seq<string>)
    ensures |StyleAll(steps, Hype)| == |steps|
    ensures forall i :: 0 <= i < |steps| ==> StyleAll(steps, Hype)[i] == "Let's go! " + steps[i] + " " + Flexed
  {
  }

  const CarWashSteps: seq<string> := ["Get soap", "Rinse car", "Dry car"]

  /** Learning three steps for "wash the car" and then asking for it in the
      hype tone gives those steps, hyped, whatever else could have matched. */
  lemma LearnedCarWashInHypeTone(store: Store, nlp: Analyzer, sim: Similarity)
    ensures var r := Generate(Learn(store, "wash the car", CarWashSteps),
                              GenerateRequest(Some("wash the car"), Some("hype")), nlp, sim);
            |r| == 3 && forall i :: 0 <= i < 3 ==> r[i] == "Let's go! " + CarWashSteps[i] + " " + Flexed
  {
    ExampleToneNames();
    LearnThenGenerate(store, "wash the car", CarWashSteps,
                      GenerateRequest(Some("wash the car"), Some("hype")), nlp, sim);
    HypeSteps(CarWashSteps);
  }

  /** Resolution of a task nothing recognises ends in the fixed plan. */
  lemma UnrecognisedResolvesToPlan(learned: Store, task: string, nlp: Analyzer, sim: Similarity)
    requires !HasKey(learned, task)
    requires forall j :: 0 <= j < |Templates| ==> Score(Templates, task, sim, j) <= Threshold
    requires forall j :: 0 <= j < |GenericFlows| ==> !Mentions(nlp(task), GenericFlows[j].key)
    requires forall v: nat, n: nat :: !IsPair(nlp(task), v, n)
    ensures Resolve(learned, task, nlp, sim) == FixedPlan(task)
  {
  }

  /** A task nothing recognises (not learned, no template above the threshold,
      no keyword in any lemma, no linked verb-noun pair), without a tone: the
      fixed plan quoting the lower-cased task, each step in the academic tone. */
  lemma UnrecognisedTaskFallsBack(learned: Store, task: string, nlp: Analyzer, sim: Similarity)
    requires !HasKey(learned, Lower(task))
    requires forall j :: 0 <= j < |Templates| ==> Score(Templates, Lower(task), sim, j) <= Threshold
    requires forall j :: 0 <= j < |GenericFlows| ==> !Mentions(nlp(Lower(task)), GenericFlows[j].key)
    requires forall v: nat, n: nat :: !IsPair(nlp(Lower(task)), v, n)
    ensures var r := Generate(learned, GenerateRequest(Some(task), None), nlp, sim);
            && |r| == 4
            && r[0] == "Academic step: " + UnderstandStep(Lower(task))
            && forall i :: 0 <= i < 4 ==> r[i] == "Academic step: " + FixedPlan(Lower(task))[i]
  {
    var plan := FixedPlan(Lower(task));
    UnrecognisedResolvesToPlan(learned, Lower(task), nlp, sim);
    GenerateOfResolved(learned, GenerateRequest(Some(task), None), nlp, sim, plan, Academic);
    AcademicSteps(plan);
  }
}
