/** The theme catalogue of the narrative pipeline (`ThemeService`): three
    themes of exactly five clips each, every clip a prompt and the keys of
    the reference images it asks for, and the per-clip prompt suffixes. */
module Themes {
  import opened Wrappers
  import Strings

  /** `NarrativeClip`; an absent `referenceImageIds` is the empty list. The
      prompt is held as the clip's place in the catalogue and its text is
      `prompt()`. */
  datatype NarrativeClip = NarrativeClip(promptId: PromptId, referenceImageIds: seq<string>) {
    function prompt(): string {
      PromptText(promptId)
    }
  }

  const InvalidTheme: string := "INVALID_THEME"

  /** `API_CALL_DELAY_MS`, the pause before every clip after the first. */
  const ApiCallDelayMs: nat := 15000

  /** One constructor per clip of the catalogue, in order. */
  datatype PromptId =
    | FairyTale1
    | FairyTale2
    | FairyTale3
    | FairyTale4
    | FairyTale5
    | CrimeDrama1
    | CrimeDrama2
    | CrimeDrama3
    | CrimeDrama4
    | CrimeDrama5
    | Superhero1
    | Superhero2
    | Superhero3
    | Superhero4
    | Superhero5

  /** The prompt texts of the catalogue. */
  function PromptText(id: PromptId): string {
    match id
    case FairyTale1 =>
      "Photorealistic high-fantasy scene in cinematic natural lighting with soft lens bokeh and magical realism tone. A cute pet wakes up in a sun-dappled meadow filled with floating golden pollen, soft breeze stirring wildflowers, and butterflies drifting lazily. Camera Static shot, then slow zoom out"
    case FairyTale2 =>
      "Photorealistic high-fantasy scene in cinematic natural lighting with soft lens bokeh and magical realism tone. The pet cautiously enters a deep enchanted forest glowing with bioluminescent mushrooms and twinkling fireflies. Cool bluish mist rolls between tall ancient trees. Camera Pan right, tracking the pet."
    case FairyTale3 =>
      "Photorealistic high-fantasy scene in cinematic natural lighting with soft lens bokeh and magical realism tone. The pet stands at a mossy riverbank. A menacing frog-dragon slowly rises its head above the water showing its teeth. pet looks fearfully at frog-dragon"
    case FairyTale4 =>
      "Photorealistic high-fantasy scene in cinematic natural lighting with soft lens bokeh and magical realism tone. The pet sits still on the top of a glowing iridescent leaf that moves left to right across a sparkling river. The frog-dragon swims directly behind pet in the water. The riverbank in the background shifts from mossy rocks to flowering trees, reflections rippling below. Wide side tracking shot on @leaf moving across the river"
    case FairyTale5 =>
      "Photorealistic high-fantasy scene in cinematic natural lighting with soft lens bokeh and magical realism tone. A castle made of glassy crystal and blooming vines appears through the trees. Forest creatures dance in a circle around the pet, petals and confetti in the air. [Arc shot around the scene]"
    case CrimeDrama1 =>
      "Film noir style: A tough-looking pet detective sits in a dimly lit office, rain pattering against the window. Venetian blind shadows across the scene. [Slow push in]"
    case CrimeDrama2 =>
      "The pet detective walks down a foggy alley at night, street lamps creating pools of light. Mysterious figure disappears around corner. [Track forward following pet]"
    case CrimeDrama3 =>
      "Close-up of pet's paw finding a mysterious glowing object hidden under newspapers. Lightning flashes outside. [Tilt down to object, then zoom in]"
    case CrimeDrama4 =>
      "The pet runs through rain-slicked streets, jumping over obstacles. Neon signs reflect in puddles. [Dynamic tracking shot]"
    case CrimeDrama5 =>
      "The pet detective stands triumphantly on a rooftop at dawn, city skyline in background. Wind ruffles their fur heroically. [Low angle hero shot, slow zoom out]"
    case Superhero1 =>
      "A regular pet discovers a glowing meteor in their backyard. As they touch it, colorful energy swirls around them. [Orbit around pet]"
    case Superhero2 =>
      "The pet transforms in a burst of light, now wearing a flowing cape and mask. They test their new flying powers. [Vertical tilt following pet's ascent]"
    case Superhero3 =>
      "The superhero pet flies between skyscrapers, scanning the city for trouble. Sun glints off glass buildings. [Aerial tracking shot]"
    case Superhero4 =>
      "The pet swoops down to save a kitten stuck in a tree, using super strength to gently lift them to safety. [Arc shot around the rescue]"
    case Superhero5 =>
      "The superhero pet stands proudly on top of the tallest building, cape billowing in the wind, city safe below. [Dramatic low angle, slow pull back to reveal cityscape]"
  }

  function FairyTaleClips(): seq<NarrativeClip> {
    [ NarrativeClip(FairyTale1, []),
      NarrativeClip(FairyTale2, []),
      NarrativeClip(FairyTale3, ["FROG_DRAGON"]),
      NarrativeClip(FairyTale4, ["FROG_DRAGON", "LEAF"]),
      NarrativeClip(FairyTale5, [])
    ]
  }

  function CrimeDramaClips(): seq<NarrativeClip> {
    [ NarrativeClip(CrimeDrama1, []),
      NarrativeClip(CrimeDrama2, []),
      NarrativeClip(CrimeDrama3, ["LEAF"]),
      NarrativeClip(CrimeDrama4, []),
      NarrativeClip(CrimeDrama5, [])
    ]
  }

  function SuperheroClips(): seq<NarrativeClip> {
    [ NarrativeClip(Superhero1, ["LEAF"]),
      NarrativeClip(Superhero2, []),
      NarrativeClip(Superhero3, []),
      NarrativeClip(Superhero4, []),
      NarrativeClip(Superhero5, ["FROG_DRAGON"])
    ]
  }

  /** `narrativeClips[themeId]`: only the record's own keys are themes. */
  function ThemeTable(themeId: string): Option<seq<NarrativeClip>> {
    if themeId == "fairy-tale" then Some(FairyTaleClips())
    else if themeId == "crime-drama" then Some(CrimeDramaClips())
    else if themeId == "superhero" then Some(SuperheroClips())
    else None
  }

  /** `getAvailableThemes`: the record's keys in declaration order. */
  function AvailableThemes(): (themes: seq<string>)
    ensures |themes| == 3
    ensures forall i :: 0 <= i < |themes| ==> ThemeTable(themes[i]).Some?
  {
    ["fairy-tale", "crime-drama", "superhero"]
  }

  /** `getNarrativeClips`: a missing theme, or one whose list is not five
      clips long, is INVALID_THEME. */
  function GetNarrativeClips(themeId: string): (r: Result<seq<NarrativeClip>>)
    ensures r.Ok? ==> |r.value| == 5 && ThemeTable(themeId) == Some(r.value)
    ensures r.Err? ==> r.error == InvalidTheme
    ensures r.Err? <==> ThemeTable(themeId).None? || |ThemeTable(themeId).value| != 5
  {
    var clips := ThemeTable(themeId);
    if clips.None? || |clips.value| != 5 then Err(InvalidTheme) else Ok(clips.value)
  }

  /** `getNarrativePrompts`: the prompts of the theme's clips, in order. */
  function GetNarrativePrompts(themeId: string): (r: Result<seq<string>>)
    ensures r.Err? <==> GetNarrativeClips(themeId).Err?
    ensures r.Err? ==> r.error == InvalidTheme
    ensures r.Ok? ==> |r.value| == 5
                      && forall i :: 0 <= i < 5 ==> r.value[i] == GetNarrativeClips(themeId).value[i].prompt()
  {
    var clips :- GetNarrativeClips(themeId);
    Ok(seq(|clips|, i requires 0 <= i < |clips| => clips[i].prompt()))
  }

  /** The list `addPromptVariation` indexes by `clipNumber - 1`. */
  function Variations(): seq<string> {
    ["", "High quality rendering.", "Smooth animation.", "Professional quality.", "Cinematic style."]
  }

  /** `variations[clipNumber - 1] || ''`: out of range reads as empty. */
  function VariationFor(clipNumber: int): string {
    if 1 <= clipNumber <= |Variations()| then Variations()[clipNumber - 1] else ""
  }

  /** `addPromptVariation`; the timestamp seed the source computes is unused. */
  function AddPromptVariation(prompt: string, clipNumber: int): (r: string)
    ensures Strings.StartsWith(r, prompt)
    ensures 2 <= clipNumber <= 5 ==> r == prompt + " " + Variations()[clipNumber - 1]
    ensures !(2 <= clipNumber <= 5) ==> r == prompt
  {
    var variation := VariationFor(clipNumber);
    if variation != "" then prompt + " " + variation else prompt
  }

  /** Exactly the three listed themes are valid, and each has five clips. */
  lemma ValidThemesAreTheAvailableOnes(themeId: string)
    ensures GetNarrativeClips(themeId).Ok? <==> themeId in AvailableThemes()
  {
  }

  /** The two MiniMax themes that are not in this catalogue are rejected. */
  lemma RomanceAndSciFiRejected()
    ensures GetNarrativeClips("romance") == Err(InvalidTheme)
    ensures GetNarrativeClips("sci-fi") == Err(InvalidTheme)
  {
  }

  /** Every reference key the catalogue uses is FROG_DRAGON or LEAF. */
  lemma ReferenceKeysInCatalogue(themeId: string, i: int, k: int)
    requires GetNarrativeClips(themeId).Ok? && 0 <= i < 5
    requires 0 <= k < |GetNarrativeClips(themeId).value[i].referenceImageIds|
    ensures GetNarrativeClips(themeId).value[i].referenceImageIds[k] in {"FROG_DRAGON", "LEAF"}
  {
  }

  /** Different clip numbers in 1..5 give different prompts, so no two clips
      of one theme send the same suffix; clip 1 is sent unchanged. */
  lemma VariationsDistinguishClips(prompt: string, m: int, n: int)
    requires 1 <= m < n <= 5
    ensures AddPromptVariation(prompt, m) != AddPromptVariation(prompt, n)
    ensures AddPromptVariation(prompt, 1) == prompt
  {
    var a := AddPromptVariation(prompt, m);
    var b := AddPromptVariation(prompt, n);
    if m == 1 {
      assert |a| < |b|;
    } else {
      assert a[|prompt| + 1..] == Variations()[m - 1];
      assert b[|prompt| + 1..] == Variations()[n - 1];
    }
  }
}
