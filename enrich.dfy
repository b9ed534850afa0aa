/**
 * Prompt enrichment: a short subject is expanded into seven cinematic
 * sentences whose descriptors are chosen by a code-point checksum of the
 * subject, then padded with a filler sentence to at least 80 words and cut
 * to at most 120 words.
 */
module Enrich {
  import opened Text

  /** The seven descriptor tables, one per sentence slot. */
  datatype Vocabulary = Vocabulary(
    camera: seq<string>, lighting: seq<string>, grade: seq<string>, lens: seq<string>,
    technique: seq<string>, texture: seq<string>, post: seq<string>)

  /** Every table has at least one entry to pick from. */
  predicate Complete(v: Vocabulary)
  {
    |v.camera| > 0 && |v.lighting| > 0 && |v.grade| > 0 && |v.lens| > 0
    && |v.technique| > 0 && |v.texture| > 0 && |v.post| > 0
  }

  const CameraMoves: seq<string> := [
    "sinuous gimbal orbit weaving between foreground architecture",
    "low altitude drone chase with accelerating parallax arcs",
    "steadicam glide with organic drift and counterbalanced pivots",
    "multi-axis crane sweep threading vertical reveals through skyline layers"
  ]
  const LightingStyles: seq<string> := [
    "sunrise amber key balanced with cool bounce diffusers and shimmering rim lights",
    "diffused cloud cover enriched by lantern glow and volumetric shafts",
    "directional hard light softened with programmable LED wraps and reflective boards",
    "nocturnal neon ambience layered with practical sconces and motivated edge bloom"
  ]
  const ColorGrades: seq<string> := [
    "rich teal and amber duotone graded through an ACES pipeline",
    "twilight magenta and cobalt palette with lifted film grain",
    "earthy greens contrasted by tungsten highlights and cyan lift",
    "neutral cinematic log curve accented by saturated primaries and clean skin tones"
  ]
  const LensProfiles: seq<string> := [
    "anamorphic 35mm glass with elongated bokeh and restrained distortion",
    "vintage spherical primes delivering micro-contrast and minimal breathing",
    "modern full-frame zoom stabilized with inertial dampening",
    "macro hybrid optics capturing tactile textures with measured focus falloff"
  ]
  const CaptureTechniques: seq<string> := [
    "motion control rails synchronized to choreography cues",
    "dual-operator focus pulling with predictive overlays",
    "multi-axis dolly choreography blended with under-slung craning",
    "volumetric cloud capture interleaved with temporal supersampling"
  ]
  const TextureDetails: seq<string> := [
    "floating dust motes, rain streak refractions, and reflective puddles",
    "wind-driven fabric, cascading hair strands, and polished metal gleams",
    "bokeh-laced speculars, mist-laden air currents, and luminous signage",
    "crystalline particles, cinematic lens flares, and shimmering water vapor"
  ]
  const PostTreatments: seq<string> := [
    "film emulation LUTs, halation bloom, and Dolby Vision trim passes",
    "spectral denoisers, layered grain, and HDR10 mastering sweeps",
    "AI-assisted interpolation, chroma refinement, and selective dehaze",
    "ACEScg balancing, channel isolation, and per-channel sharpening"
  ]

  /**
   * A sentence with one slot: the descriptor (or subject) goes between
   * `before` and `after`.
   */
  datatype Frame = Frame(before: string, after: string)

  function Fill(f: Frame, slot: string): string
  {
    f.before + slot + f.after
  }

  /** `s` opens with the frame's `before` text and closes with its `after` text. */
  predicate Framed(s: string, f: Frame)
  {
    |f.before| + |f.after| <= |s| && s[..|f.before|] == f.before && s[|s| - |f.after|..] == f.after
  }

  /** A filled frame opens and closes with the frame's text, and between them lies the slot. */
  lemma FillFramed(f: Frame, slot: string)
    ensures var s := Fill(f, slot); Framed(s, f) && s[|f.before|..|s| - |f.after|] == slot
  {
    var s := Fill(f, slot);
    assert s == f.before + slot + f.after;
    assert s[..|f.before|] == f.before;
    assert s[|s| - |f.after|..] == f.after;
    assert s[|f.before|..|s| - |f.after|] == slot;
  }

  /**
   * Everything enrichment reads besides the prompt: the descriptor tables,
   * the seven sentence frames, the blank-prompt subject and the filler
   * sentence as its list of words.
   */
  datatype Style = Style(
    vocabulary: Vocabulary, frames: seq<Frame>, defaultSubject: string, fillerWords: seq<string>)

  predicate WellFormed(st: Style)
  {
    Complete(st.vocabulary) && |st.frames| == 7
    && st.fillerWords != [] && forall i :: 0 <= i < |st.fillerWords| ==> IsWord(st.fillerWords[i])
  }

  /** The constants of the automation package. */
  const HouseVocabulary: Vocabulary :=
    Vocabulary(CameraMoves, LightingStyles, ColorGrades, LensProfiles,
               CaptureTechniques, TextureDetails, PostTreatments)

  const HouseFrames: seq<Frame> := [
    Frame("Cinematic portrayal of ", " with orchestrated focus cues and layered atmospheric depth for grand scale."),
    Frame("Camera executes a ", " path with responsive stabilization to sustain fluid parallax and articulate every spatial plane."),
    Frame("Lighting relies on ", " while volumetric haze shapes silhouettes and highlights moving subjects."),
    Frame("Color palette leans on ", " to preserve nuanced gradients during rapid motion."),
    Frame("Lens emulation mirrors ", " to emphasize dimensionality and subject separation."),
    Frame("Surface detail features ", " that animate through the frame without smearing."),
    Frame("Post-production integrates ", " and cinematic motion blur tuned for twenty-four frame playback.")
  ]

  const HouseSubject: string := "cinematic motion study with layered environments"

  const HouseFiller: seq<string> :=
    ["Advanced", "audio-reactive", "motion", "curves", "maintain", "rhythm",
     "and", "micro-timing", "edits", "reinforce", "narrative", "continuity."]

  const House: Style := Style(HouseVocabulary, HouseFrames, HouseSubject, HouseFiller)

  const MinWords: nat := 80
  const MaxWords: nat := 120

  /** Sum of the code points of `s`. */
  function CodePointSum(s: string): nat
  {
    if s == [] then 0 else (s[0] as int) + CodePointSum(s[1..])
  }

  /** `items[(checksum(text) + offset) % len(items)]` */
  function PickDescriptor(text: string, items: seq<string>, offset: nat): (r: string)
    requires |items| > 0
    ensures r in items
  {
    items[(CodePointSum(text) + offset) % |items|]
  }

  lemma {:induction false} CodePointSumAppend(a: string, b: string)
    ensures CodePointSum(a + b) == CodePointSum(a) + CodePointSum(b)
  {
    if a != [] {
      assert (a + b)[0] == a[0];
      assert (a + b)[1..] == a[1..] + b;
      CodePointSumAppend(a[1..], b);
    } else {
      assert a + b == b;
    }
  }

  /** Taking out the character at `j` takes its code point out of the sum. */
  lemma SumRemoveAt(b: string, j: nat)
    requires j < |b|
    ensures CodePointSum(b) == (b[j] as int) + CodePointSum(b[..j] + b[j + 1..])
  {
    var pre, post := b[..j], b[j + 1..];
    var tail := [b[j]] + post;
    assert b == pre + tail;
    assert tail[0] == b[j] && tail[1..] == post;
    assert CodePointSum(tail) == (b[j] as int) + CodePointSum(post);
    CodePointSumAppend(pre, tail);
    CodePointSumAppend(pre, post);
  }

  /** Taking out the character at `j` takes one copy of it out of the multiset. */
  lemma MultisetRemoveAt(b: string, j: nat)
    requires j < |b|
    ensures multiset(b[..j] + b[j + 1..]) == multiset(b) - multiset{b[j]}
  {
    assert b == b[..j] + ([b[j]] + b[j + 1..]);
    assert multiset(b) == multiset(b[..j]) + multiset{b[j]} + multiset(b[j + 1..]);
  }

  /** The checksum depends only on which characters occur, not on their order. */
  lemma {:induction false} CodePointSumOrderFree(a: string, b: string)
    requires multiset(a) == multiset(b)
    ensures CodePointSum(a) == CodePointSum(b)
    decreases |a|
  {
    if a != [] {
      assert a[0] in multiset(b);
      var j :| 0 <= j < |b| && b[j] == a[0];
      SumRemoveAt(b, j);
      MultisetRemoveAt(b, j);
      assert a == [a[0]] + a[1..];
      assert multiset(a[1..]) == multiset(a) - multiset{a[0]};
      CodePointSumOrderFree(a[1..], b[..j] + b[j + 1..]);
    } else {
      assert |b| == |multiset(b)| == 0;
    }
  }

  /** Two subjects that are anagrams of each other get the same descriptor. */
  lemma AnagramsPickAlike(a: string, b: string, items: seq<string>, offset: nat)
    requires |items| > 0
    requires multiset(a) == multiset(b)
    ensures PickDescriptor(a, items, offset) == PickDescriptor(b, items, offset)
  {
    CodePointSumOrderFree(a, b);
  }

  /** The caller's prompt without surrounding whitespace, or the default subject. */
  function Subject(basePrompt: string, defaultSubject: string): (text: string)
    ensures Strip(basePrompt) == "" ==> text == defaultSubject
    ensures Strip(basePrompt) != "" ==> text == Strip(basePrompt)
  {
    var stripped := Strip(basePrompt);
    if stripped != "" then stripped else defaultSubject
  }

  /** The seven sentences about `text`, with descriptors picked at offsets 0 to 6. */
  function Segments(text: string, st: Style): (ss: seq<string>)
    requires WellFormed(st)
    ensures |ss| == |st.frames|
  {
    var v := st.vocabulary;
    var camera := PickDescriptor(text, v.camera, 0);
    var lighting := PickDescriptor(text, v.lighting, 1);
    var grade := PickDescriptor(text, v.grade, 2);
    var lens := PickDescriptor(text, v.lens, 3);
    var technique := PickDescriptor(text, v.technique, 4);
    var texture := PickDescriptor(text, v.texture, 5);
    var post := PickDescriptor(text, v.post, 6);
    [
      Fill(st.frames[0], text),
      Fill(st.frames[1], camera),
      Fill(st.frames[2], lighting),
      Fill(st.frames[3], grade),
      Fill(st.frames[4], lens + " alongside " + technique),
      Fill(st.frames[5], texture),
      Fill(st.frames[6], post)
    ]
  }

  /** Every sentence is framed by its frame's text, and the first one carries the subject. */
  lemma SegmentsFramed(text: string, st: Style)
    requires WellFormed(st)
    ensures var ss := Segments(text, st);
      && (forall i :: 0 <= i < |ss| ==> Framed(ss[i], st.frames[i]))
      && ss[0][|st.frames[0].before|..|ss[0]| - |st.frames[0].after|] == text
  {
    var ss := Segments(text, st);
    forall i | 0 <= i < |ss| ensures Framed(ss[i], st.frames[i]) {
      var slot :| ss[i] == Fill(st.frames[i], slot);
      FillFramed(st.frames[i], slot);
    }
    FillFramed(st.frames[0], text);
  }

  /** The filler sentence: its words joined by single spaces. */
  function Filler(st: Style): (filler: string)
    requires WellFormed(st)
    ensures Words(filler) == st.fillerWords
  {
    WordsOfJoin(st.fillerWords);
    Join(st.fillerWords)
  }

  lemma HouseVocabularyComplete()
    ensures Complete(HouseVocabulary)
  {
  }

  lemma HouseFillerWords()
    ensures |HouseFiller| == 12 && forall i :: 0 <= i < |HouseFiller| ==> IsWord(HouseFiller[i])
  {
    forall i | 0 <= i < |HouseFiller| ensures IsWord(HouseFiller[i]) {
    }
  }

  lemma HouseWellFormed()
    ensures WellFormed(House) && |House.fillerWords| == 12
  {
    HouseVocabularyComplete();
    HouseFillerWords();
    assert |HouseFrames| == 7;
  }

  /** The prompt after the padding loop: copies of `filler` until 80 words. */
  function Pad(prompt: string, filler: string): (r: string)
    requires Words(filler) != []
    ensures |Words(r)| >= MinWords
    ensures |Words(prompt)| >= MinWords ==> r == prompt
    ensures |Words(prompt)| < MinWords ==> |Words(r)| < MinWords + |Words(filler)|
    ensures |Words(prompt)| <= |Words(r)| && Words(r)[..|Words(prompt)|] == Words(prompt)
    decreases MinWords - |Words(prompt)|
  {
    if |Words(prompt)| >= MinWords then prompt
    else
      WordsOfSpaceConcat(prompt, filler);
      Pad(prompt + " " + filler, filler)
  }

  /** `n` copies of the words `ws`, one after another. */
  function Repeat(ws: seq<string>, n: nat): (r: seq<string>)
    ensures |r| == n * |ws|
  {
    if n == 0 then [] else ws + Repeat(ws, n - 1)
  }

  /**
   * How many copies of a `per`-word filler the padding loop appends to a
   * prompt of `have` words: none from 80 words on, otherwise the fewest
   * that reach 80.
   */
  function Copies(have: nat, per: nat): (n: nat)
    requires per > 0
    ensures have + n * per >= MinWords
    ensures n > 0 ==> have + (n - 1) * per < MinWords
    decreases MinWords - have
  {
    if have >= MinWords then 0 else 1 + Copies(have + per, per)
  }

  /**
   * The words of the padded prompt are the prompt's own words followed by
   * exactly `Copies` copies of the filler's words.
   */
  lemma {:induction false} PadWords(prompt: string, filler: string)
    requires Words(filler) != []
    ensures Words(Pad(prompt, filler))
         == Words(prompt) + Repeat(Words(filler), Copies(|Words(prompt)|, |Words(filler)|))
    decreases MinWords - |Words(prompt)|
  {
    if |Words(prompt)| < MinWords {
      WordsOfSpaceConcat(prompt, filler);
      PadWords(prompt + " " + filler, filler);
    }
  }

  /** The sentences about the subject of `basePrompt`, joined by single spaces. */
  function Opening(basePrompt: string, st: Style): string
    requires WellFormed(st)
  {
    Join(Segments(Subject(basePrompt, st.defaultSubject), st))
  }

  /** Enrichment with the given style: pad to 80 words, then cut to 120. */
  function EnrichWith(basePrompt: string, st: Style): (r: string)
    requires WellFormed(st)
    ensures MinWords <= |Words(r)| <= MaxWords
  {
    var prompt := Pad(Opening(basePrompt, st), Filler(st));
    var words := Words(prompt);
    if |words| > MaxWords then
      WordsOfJoin(words[..MaxWords]);
      Join(words[..MaxWords])
    else prompt
  }

  /** `enrich_prompt(base_prompt)` */
  function EnrichedPrompt(basePrompt: string): (r: string)
    ensures MinWords <= |Words(r)| <= MaxWords
  {
    HouseWellFormed();
    EnrichWith(basePrompt, House)
  }

  /**
   * The enriched prompt opens with the words of the seven sentences, as
   * many of them as fit in the 120-word limit.
   */
  lemma EnrichedOpensWithSentences(basePrompt: string, st: Style)
    requires WellFormed(st)
    ensures var sentences := Words(Opening(basePrompt, st));
            var k := if |sentences| < MaxWords then |sentences| else MaxWords;
            var words := Words(EnrichWith(basePrompt, st));
            |words| >= k && words[..k] == sentences[..k]
  {
    var sentences := Words(Opening(basePrompt, st));
    var k := if |sentences| < MaxWords then |sentences| else MaxWords;
    var prompt := Pad(Opening(basePrompt, st), Filler(st));
    var words := Words(prompt);
    assert |sentences| <= |words| && words[..|sentences|] == sentences;
    assert words[..k] == sentences[..k] by {
      forall i | 0 <= i < k ensures words[i] == sentences[i] {
        assert words[..|sentences|][i] == words[i];
      }
    }
    if |words| > MaxWords {
      WordsOfJoin(words[..MaxWords]);
      assert Words(EnrichWith(basePrompt, st)) == words[..MaxWords];
    } else {
      assert EnrichWith(basePrompt, st) == prompt;
    }
  }

  /** Whitespace around the caller's prompt does not change the result. */
  lemma EnrichedIgnoresSurroundingSpace(basePrompt: string, st: Style)
    requires WellFormed(st)
    ensures EnrichWith(Strip(basePrompt), st) == EnrichWith(basePrompt, st)
  {
    StripIdempotent(basePrompt);
  }

  /** A blank prompt is enriched as the default subject. */
  lemma BlankPromptUsesDefault(basePrompt: string, st: Style)
    requires WellFormed(st)
    requires Strip(basePrompt) == ""
    ensures Opening(basePrompt, st) == Join(Segments(st.defaultSubject, st))
  {
  }

  /**
   * `enrich_prompt`: builds the sentences, pads in a loop, then truncates.
   * The module constants it reads are the style `st` (`House` in the package).
   */
  method EnrichPrompt(basePrompt: string, st: Style) returns (prompt: string)
    requires WellFormed(st)
    ensures prompt == EnrichWith(basePrompt, st)
    ensures MinWords <= |Words(prompt)| <= MaxWords
  {
    var filler := Filler(st);
    var text := Subject(basePrompt, st.defaultSubject);
    var segments := Segments(text, st);
    prompt := Join(segments);
    var words := Words(prompt);
    while |words| < MinWords
      invariant words == Words(prompt)
      invariant Pad(prompt, filler) == Pad(Join(segments), filler)
      decreases MinWords - |words|
    {
      WordsOfSpaceConcat(prompt, filler);
      prompt := prompt + " " + filler;
      words := Words(prompt);
    }
    if |words| > MaxWords {
      prompt := Join(words[..MaxWords]);
    }
  }
}
