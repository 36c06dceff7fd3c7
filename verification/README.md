# Meme generator: fit geometry, button states and narration

A model of the pure logic inside the event handlers of the meme generator
page (`script.js`). The page loads an image onto a canvas, draws a top and a
bottom caption over it, and can read both captions aloud with a chosen
synthesis voice at a chosen volume. The model has four modules:

- `Geometry` (geometry.dfy): `GetDimensions`, the aspect-ratio-preserving
  placement of the image on the canvas, over exact reals. A portrait image
  takes the full canvas height and is centred horizontally. A landscape or
  square image takes the full canvas width and is centred vertically.
- `Volume` (volume.dfy): the speaker icon chosen for a slider setting
  (tiers 0, 1–33, 34–66, 67–100, and no change above 100), and the playback
  volume `setting / 100`.
- `Narration` (narration.dfy): the spoken text `top + " " + bottom`. It also
  has the selector entries appended for a catalogue, one per voice, labelled
  `name (lang)` plus ` -- DEFAULT` for the platform's default voice. Each
  refill removes only the selector's first entry before appending, so
  entries build up across clicks (`Repopulate`, `SelectorGrows`). Last, the
  lookup of the selected name, a full scan that keeps the last voice with
  that name.
- `Session` (session.dfy): the page state: the disabled flags of the
  generate, clear and read-text buttons, the two caption fields, the volume,
  the icon and the voice selector. The user's typing and the load, generate,
  clear, read-text and slider handlers are functions from state to state.
  The read-text handler is `OnRead` (the state change: the selector is
  refilled) followed by the method `ReadAloud` on the refilled state, which
  returns what is spoken. Nothing is spoken when no selector entry is
  selected, because reading the selected entry's name then throws.

The placement's doc comment promises that the image always fits inside the
canvas. That holds on a square canvas (`SquareCanvasFits`), and
`FitsInsideExactly` gives the exact condition for any canvas. On other
canvases it can fail: `WideCanvasOverflow` shows a 1000×900 image drawn 450
high on a 500×400 canvas.

A square image takes the landscape branch. So on any canvas it is drawn
canvas-width on both sides (`SquareImage`), which fits perfectly into the
canvas, as the doc comment says, only when the canvas is at least as tall as
it is wide.

## Model

| member | source | states |
|---|---|---|
| Geometry.GetDimensions | script.js:175-202 | Portrait images (width < height) get the full canvas height, startY 0 and a proportional width. Other images get the full canvas width, startX 0 and a proportional height. Both branches keep the aspect ratio, are centred on both axes and have a positive size. |
| Geometry.PortraitIsNarrow | script.js:179-182 | The aspect-ratio test `width / height < 1` holds exactly when the image is narrower than it is tall. |
| Geometry.FitsInsideExactly | script.js:175-199 | The placement lies inside the canvas if and only if the proportional dimension does not exceed the canvas, stated in cross-multiplied form for each branch. |
| Geometry.SquareCanvasFits | script.js:164-199 | On a square canvas the doc comment's promise holds: the placement is inside the canvas and 0 < width, height <= the canvas size. |
| Geometry.WideCanvasOverflow | script.js:191-198 | Without that guard the promise fails: a 1000×900 image on a 500×400 canvas is 450 high and does not fit. |
| Geometry.TouchesOneEdge | script.js:182-199 | The placement spans the full canvas width or the full canvas height. |
| Geometry.SquareImage | script.js:191-198 | A square image is drawn canvas-width on both sides with startX 0, whatever the canvas height. |
| Geometry.LandscapeExample | script.js:191-198 | A 1000×500 image on a 500×400 canvas is placed at (0, 75) with size 500×250. |
| Geometry.PortraitExample | script.js:182-189 | A 400×800 image on a 500×400 canvas is placed at (150, 0) with size 200×400. |
| Volume.VolumeIcon | script.js:148-160 | Setting 0 gives tier 0, 1..33 tier 1, 34..66 tier 2 and 67..100 tier 3. Above 100 the shown icon is kept. Below 0 the chain yields tier 1. |
| Volume.VolumeIconClosedForm | script.js:148-160 | On 0..100 the tier equals the closed form ceil(3·setting/100), a definition independent of the comparison chain. |
| Volume.VolumeIconMonotone | script.js:148-160 | On 0..100 a larger setting never shows a lower tier. |
| Volume.VolumeIconForgetsCurrent | script.js:148-160 | For settings up to 100 the new icon does not depend on the previous one. |
| Volume.PlaybackVolume | script.js:139 | The speech volume times 100 is the slider setting, and it lies in [0, 1] for settings in 0..100. |
| Volume.PlaybackVolumeMonotone | script.js:139 | The speech volume grows with the setting. The initial setting of 100 gives full volume, and 0 gives silence. |
| Narration.UtteranceText | script.js:113 | The spoken text is the top caption, then exactly one space, then the bottom caption. Its length is the sum plus one. |
| Narration.UtteranceTextInjective | script.js:113 | Two caption pairs with equally long top captions give the same spoken text only if both captions agree. |
| Narration.VoiceLabelShape | script.js:72-76 | The label starts with `name (lang)`. It ends with ` -- DEFAULT` exactly when the voice is the default. Its length is fixed by the name, the language and the marker. |
| Narration.MakeOption | script.js:71-79 | A selector entry carries the voice's name and language as data, and its text is the voice's label. |
| Narration.Repopulate | script.js:115-130 | The refilled selector drops only the first old entry (an empty selector stays empty), keeps the rest in order and ends with the entries built for the catalogue. It is empty exactly when it held at most one entry and the catalogue is empty. |
| Narration.RepopulateEntry | script.js:115-130 | After a refill, the entry at position i from the start of the appended block is the entry of voice i. |
| Narration.SelectorGrows | script.js:115-130 | From a selector of m ≥ 1 entries and a catalogue of n ≥ 1 voices, k refills leave m + k·(n − 1) entries, so entries build up across clicks. |
| Narration.RefillCount | script.js:115-130 | After k refills the selector holds exactly as many entries as the count-only recurrence gives: each refill removes one entry if there is one and adds one per voice. |
| Narration.EntryCountClosedForm | script.js:115-130 | For a start of m ≥ 1 entries and n ≥ 1 voices that count is m + k·(n − 1). |
| Narration.BuildOptions | script.js:119-130 | The selector gets one entry per voice, in catalogue order. Entry i is the entry of voice i. |
| Narration.LastMatchCharacterized | script.js:132-137 | The reference lookup finds nothing exactly when no voice has the name. Otherwise it finds a voice with that name after which no voice has it. |
| Narration.ResolveVoice | script.js:132-137 | The scan without `break` ends with the last voice whose name equals the selected name. It leaves the voice unset exactly when no name matches, and agrees with the reference lookup. |
| Narration.SelectedOptionResolves | script.js:127-137 | Selecting any built entry resolves to a voice with that entry's name. When names are unique it is the entry's own voice. |
| Session.OnImageLoad | script.js:22-26 | Loading an image enables generate, disables clear and read text, and keeps the captions, volume, icon and selector. |
| Session.OnEdit | script.js:50-51 | Typing into the caption fields sets both captions and changes nothing else. |
| Session.OnSubmit | script.js:58-81 | Generating disables generate and enables clear and read text. It enables the voice selector and refills it from the catalogue, and keeps the captions, volume and icon. |
| Session.OnClear | script.js:92-105 | Clearing sets both captions to "", enables generate, disables clear and read text, and keeps the volume, icon and selector. |
| Session.OnRead | script.js:115-130 | Reading aloud enables the voice selector and refills it from the catalogue. Buttons, captions, volume and icon are unchanged. |
| Session.OnVolumeInput | script.js:144-160 | Moving the slider stores the setting. For 0..100 it shows tier ceil(3·setting/100), above 100 it keeps the icon, and below 0 it shows tier 1. Buttons, captions and selector are unchanged. |
| Session.ToggleRelations | script.js:22-105 | Whatever the starting state, generate sets the exact negation of the flags an image load sets, and clear sets the same flags as an image load. |
| Session.ClearIdempotent | script.js:92-105 | Clearing twice gives the same state as clearing once. |
| Session.ClearedUtterance | script.js:97-113 | The captions a clear leaves give the spoken text " " (one space), and the clear disables read text, so that text cannot be spoken until generate enables the button again. |
| Session.ConsistentButtons | script.js:58-62 | In both flag combinations the handlers set, clear and read text share a flag, and generate has the opposite one. |
| Session.RunConsistent | script.js:18-105 | After any event sequence that contains a load, generate or clear (or starts from a set combination), the flags are one of the two combinations the handlers set. |
| Session.RunAppend | script.js:18-161 | Handling one more event continues from the state the earlier events left. |
| Session.RunCaptions | script.js:47-112 | After any event sequence, the captions are the pair written last: typed by the user, or "" and "" after a clear. If nothing wrote them they are the initial pair. No other handler changes them. |
| Session.ReadAloud | script.js:132-141 | Applied to the state `OnRead` leaves, it speaks only when an entry of the refilled selector is selected, so never with an empty selector; that stands for the throw when no entry is selected. It speaks `top + " " + bottom` at the setting divided by 100, with the voice `LastMatch` gives for the selected entry's name. `LastMatchCharacterized` shows that is the last voice with that name, unset if none matches. |

## Left out

- `Step` and `Run` apply every handler whatever the button flags say. The browser does not deliver clicks on disabled buttons, so `Run` accepts event sequences the page cannot produce, such as a read-text click straight after a clear. `RunConsistent` and `RunCaptions` hold for all of them, the page's sequences included.
- Canvas drawing (clearing, the black fill, `drawImage`, the caption font, colour and positions) is not modelled. Only the placement geometry it consumes is.
- DOM access (looking up elements and buttons, creating and appending options) is not modelled. The button flags, caption fields and selector entries are plain values.
- Which selector entry the browser selects is not modelled. `ReadAloud` takes the selected index the browser reports after the refill, with -1 or any other index outside the selector meaning that nothing is selected. The placeholder entry of the page markup, which carries no voice name, is not modelled either. The selector's initial entries are a field of the starting `State`.
- The generate handler reads the selected entry's name too, after setting the flags and refilling the selector. With an empty selector that read throws. `OnSubmit` is unaffected, because every state change comes before the throw.
- Reading the image file, the object URL, the image's alt text and the asynchronous image decode are not modelled. `OnImageLoad` is the handler that runs once the image is decoded.
- Querying the voice catalogue and speaking are platform calls. The catalogue is a parameter, and `ReadAloud` returns the utterance instead of speaking it.
- The generate handler also builds an utterance and resolves its voice, but that utterance is never spoken, because the read-text handler builds its own. That voice-list code is the same as the read-text handler's, so it is modelled once, in `BuildOptions` and `ResolveVoice`.
- Floating point is not modelled. Geometry and `PlaybackVolume` use exact reals instead of IEEE doubles. Geometry requires positive dimensions, which leaves out division by zero for zero-height images.
- The slider value is an integer. The loose comparison of the slider's string value with numbers is not modelled.
- The icon file names and alt texts are not modelled, including tier 1's alt text reading "Volume Level 2". Only the tier number is.
- The initial enabled or disabled state of the buttons and the initial icon come from the page markup, which is not part of this model. They are fields of the starting `State`.
