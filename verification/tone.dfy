/** The tone table: each named tone decorates a step with fixed text around it. */
module Tone {
  import opened Wrappers
  import opened Text
  import opened Dict

  /** The six named tones, and `Plain` for a tone name the table does not know. */
  datatype Tone = Pirate | Girlypop | Academic | Calm | Hype | Slang | Plain

  /** The emoji decorations, character for character as the source file holds
      them: each emoji's UTF-8 bytes were saved once more as if they were
      Windows-1252 text, so the file carries these accented letters and
      punctuation marks, and the service sends them, not the emoji. */
  const PirateFlag: string := "\U{F0}\U{178}\U{B4}\U{E2}\U{20AC}\U{E2}\U{2DC}\U{A0}\U{EF}\U{B8}"
  const Sparkles: string := "\U{E2}\U{153}\U{A8}\U{F0}\U{178}\U{2019}\U{2013}"
  const Flexed: string := "\U{F0}\U{178}\U{2019}\U{AA}\U{F0}\U{178}\U{201D}\U{A5}"

  /** Tone names in table order. */
  const ToneStyles: Dict<Tone> := [
    Entry("pirate", Pirate),
    Entry("girlypop", Girlypop),
    Entry("academic", Academic),
    Entry("calm", Calm),
    Entry("hype", Hype),
    Entry("slang", Slang)
  ]

  /** The tone name a request without one gets. */
  const DefaultToneName: string := "academic"

  /** The tone transform applied to one step. */
  function Apply(t: Tone, s: string): (r: string)
    ensures r == Prefix(t) + Body(t, s) + Suffix(t)
    ensures t == Plain ==> r == s
  {
    match t
    case Pirate => "Arrr! " + s + " " + PirateFlag
    case Girlypop => "Omg! " + s + " " + Sparkles
    case Academic => "Academic step: " + s
    case Calm => "Take a deep breath. " + s + "."
    case Hype => "Let's go! " + s + " " + Flexed
    case Slang => "Yo, just " + Lower(s) + ", bruh."
    case Plain => s
  }

  /** The fixed text a tone puts before a step. */
  function Prefix(t: Tone): string {
    match t
    case Pirate => "Arrr! "
    case Girlypop => "Omg! "
    case Academic => "Academic step: "
    case Calm => "Take a deep breath. "
    case Hype => "Let's go! "
    case Slang => "Yo, just "
    case Plain => ""
  }

  /** The fixed text a tone puts after a step. */
  function Suffix(t: Tone): string {
    match t
    case Pirate => " " + PirateFlag
    case Girlypop => " " + Sparkles
    case Academic => ""
    case Calm => "."
    case Hype => " " + Flexed
    case Slang => ", bruh."
    case Plain => ""
  }

  /** What of the step itself a tone keeps: all of it, lower-cased for `Slang`. */
  function Body(t: Tone, s: string): string {
    if t == Slang then Lower(s) else s
  }

  /** Removes a tone's decoration, or fails when `r` does not carry it. */
  function Unstyle(t: Tone, r: string): (u: Option<string>)
    ensures u.Some? ==> |u.value| + |Prefix(t)| + |Suffix(t)| == |r|
  {
    if |Prefix(t)| + |Suffix(t)| <= |r| && StartsWith(r, Prefix(t)) && EndsWith(r, Suffix(t))
    then Some(r[|Prefix(t)|..|r| - |Suffix(t)|])
    else None
  }

  /** Styling loses nothing of a step except, for `Slang`, its letter case. */
  lemma UnstyleApply(t: Tone, s: string)
    ensures Unstyle(t, Apply(t, s)) == Some(Body(t, s))
    ensures t != Slang ==> Unstyle(t, Apply(t, s)) == Some(s)
  {
  }

  /** The tone a request asks for: its `tone` field, `"academic"` when absent,
      lower-cased and looked up in the table; an unknown name gives `Plain`. */
  function ToneFor(name: Option<string>): (r: Tone)
    ensures name.None? ==> r == Academic
    ensures name.Some? && HasKey(ToneStyles, Lower(name.value)) ==>
              Lookup(ToneStyles, Lower(name.value)) == Some(r)
    ensures name.Some? && !HasKey(ToneStyles, Lower(name.value)) ==> r == Plain
  {
    DefaultNameIsAcademic();
    ToneNamed(Lower(name.GetOr(DefaultToneName)))
  }

  /** `TONE_STYLES.get(key, lambda s: s)`: the entry's tone for a key in the
      table, the identity otherwise. */
  function ToneNamed(key: string): (r: Tone)
    ensures HasKey(ToneStyles, key) ==> Lookup(ToneStyles, key) == Some(r)
    ensures !HasKey(ToneStyles, key) ==> r == Plain
  {
    Lookup(ToneStyles, key).GetOr(Plain)
  }

  /** The default name, lower-cased, is the table's academic entry. */
  lemma DefaultNameIsAcademic()
    ensures ToneNamed(Lower(DefaultToneName)) == Academic
  {
    ToneNamesLowered();
    assert ToneStyles[2].key == DefaultToneName;
    LowerOfLowered(DefaultToneName);
    ToneStylesUnique();
    LookupAt(ToneStyles, 2);
  }

  /** The names in the tone table are lower-case. */
  lemma ToneNamesLowered()
    ensures forall i :: 0 <= i < |ToneStyles| ==> IsLowered(ToneStyles[i].key)
  {
  }

  /** Each name in the table selects its own tone. */
  lemma ToneForKnownName(i: nat)
    requires i < |ToneStyles|
    ensures ToneFor(Some(ToneStyles[i].key)) == ToneStyles[i].value
  {
    ToneNamesLowered();
    LowerOfLowered(ToneStyles[i].key);
    ToneStylesUnique();
    LookupAt(ToneStyles, i);
  }

  lemma ToneStylesUnique()
    ensures UniqueKeys(ToneStyles)
  {
  }

  /** A key the table does not have selects `Plain`, which leaves steps
      unchanged; a key it has selects that entry's tone, never `Plain`. */
  lemma ToneNamedUnknownIsIdentity(key: string, s: string)
    ensures !HasKey(ToneStyles, key) <==> ToneNamed(key) == Plain
    ensures !HasKey(ToneStyles, key) ==> Apply(ToneNamed(key), s) == s
    ensures HasKey(ToneStyles, key) ==> Lookup(ToneStyles, key) == Some(ToneNamed(key))
  {
    var found := Lookup(ToneStyles, key);
    if found.Some? {
      var i :| 0 <= i < |ToneStyles| && ToneStyles[i] == Entry(key, found.value);
      assert ToneStyles[i].value != Plain;
    }
  }

  /** Tone names are matched without regard to ASCII letter case. */
  lemma ToneForIgnoresCase(a: string, b: string)
    requires Lower(a) == Lower(b)
    ensures ToneFor(Some(a)) == ToneFor(Some(b))
  {
  }

  /** `[tone_fn(step) for step in steps]`. */
  function StyleAll(steps: seq<string>, t: Tone): (r: seq<string>)
    ensures |r| == |steps|
    ensures forall i :: 0 <= i < |steps| ==> r[i] == Apply(t, steps[i])
  {
    if steps == [] then [] else [Apply(t, steps[0])] + StyleAll(steps[1..], t)
  }
}
