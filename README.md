# Meme generator page logic, in Dafny

This project models the logic in `script.js` of a browser meme generator. The page loads an image, draws it on a 400 x 400 canvas, writes two captions over it, and can read the captions aloud with a voice and volume chosen by the user. The rest of the script is glue over canvas, file and speech APIs. What is modelled:

- **Image fit** (`image_fit.dfy`, module `ImageFit`). `GetDimensions` is `getDimmensions`, computed over `real`. It keeps the image's aspect ratio and fills one axis of the canvas. It fills the height when the image's width/height ratio is below 1, and the width otherwise. It centres the image on the other axis. The lemmas prove four things:
  - the aspect ratio is kept;
  - no larger copy of the image with the same ratio fits the canvas;
  - on a square canvas the image fits, with offsets that are not negative;
  - exactly which canvas shapes the image fits on.
- **Volume icon** (`volume_icon.dfy`, module `VolumeIcon`). The slider position divided by 100 is the volume. The volume picks one of four icon levels using the thresholds 0.67, 0.34 and 0.01. The page-wide `volume` variable is a field of a `VolumeControl` class.
- **Button enablement** (`form_buttons.dfy`, module `FormButtons`). The submit, reset and read-aloud `disabled` flags are fields of a class. There is one method per handler: image load, submit and clear. The model proves that a series of events ends in the state the last event sets, and that the invariant `reset == read == !submit` holds after any event and is kept from a consistent start. The markup's initial flags are not modelled, so the constructor accepts any starting state.
- **File name** (`image_file.dfy`, module `ImageFile`). The image's alt text is the part of the object URL after its last `/`.
- **Voices** (`voices.dfy`, module `Voices`). Each voice gets a menu label `name (lang)`, with ` -- DEFAULT` added for the default voice. The `voiceschanged` handler fills the voice menu: it appends one entry per voice, then removes entry 0. The read button's handler scans the voices and keeps the last one whose name equals the selected entry's `data-name`.

The doc comment of `getDimmensions` (script.js:31-33) promises that the image "fits perfectly into the Canvas and maintains aspect ratio". The branch at script.js:49 compares only the image's own aspect ratio with 1, never with the canvas's, so the promise holds only for square canvases. The model follows the code. `FitsSquareCanvas` proves the fit for square canvases, which is the only call the page makes (`getDimmensions(400, 400, …)`). `NonSquareCanvasOverflows` gives a case that fails: a 400 x 100 canvas and an 800 x 400 image give height 200 and `startY` -50. `FitsExactlyWhen` states exactly which canvases the image fits.

For slider positions 0..100, the levels stated by `SliderLevels` also hold in IEEE doubles. The reason is that `67/100` rounds to the same double as the literal `0.67`, and the same goes for 34 and 1.

## Model

| member | source | states |
|---|---|---|
| `ImageFit.GetDimensions` | script.js:42-69 | the drawn rectangle keeps the image's aspect ratio (`width * imageHeight == height * imageWidth`); a tall image (ratio below 1) fills the canvas height from the top edge, any other image fills the width from the left edge; the rectangle is centred on both axes (`2*startX + width == canvasWidth`, `2*startY + height == canvasHeight`) |
| `ImageFit.TallIffNarrower` | script.js:46-49 | for positive sizes the branch `imageWidth / imageHeight < 1` is taken exactly when the image is narrower than it is high |
| `ImageFit.FitsSquareCanvas` | script.js:42-68 | on a square canvas a positive-size image is drawn with `0 < width <= size`, `0 < height <= size` and offsets that are not negative |
| `ImageFit.FitIsLargest` | script.js:42-68 | every copy of the image, scaled by a positive factor, that fits inside the canvas is no wider and no higher than the drawn rectangle; this holds on any canvas |
| `ImageFit.FitsExactlyWhen` | script.js:42-68 | on a canvas of any shape the image lies inside with offsets that are not negative exactly when the scale of the filled axis keeps the other axis within the canvas |
| `ImageFit.NonSquareCanvasOverflows` | script.js:49-66 | a 400 x 100 canvas and an 800 x 400 image give a rectangle 200 high starting at y = -50, because the branch ignores the canvas's shape |
| `ImageFit.LoadedImageRect` | script.js:21 | the load handler's call on the 400 x 400 canvas gives a rectangle that fits, touches the canvas on at least one axis, is centred, and keeps the aspect ratio |
| `ImageFit.Scenarios` | script.js:21 | 800 x 400, 200 x 800 and 400 x 400 images are drawn at (0, 100) 400 x 200, at (150, 0) 100 x 400, and at (0, 0) 400 x 400 |
| `VolumeIcon.VolumeOf` | script.js:185 | the volume is the slider position divided by 100, so a position in 0..100 gives a volume in 0..1 |
| `VolumeIcon.IconLevel` | script.js:189-200 | every volume is mapped to exactly one of the four icon levels 0..3 |
| `VolumeIcon.IconLevelMonotone` | script.js:189-200 | a louder volume never shows a lower icon level |
| `VolumeIcon.SliderLevels` | script.js:185-200 | for a slider position v in 0..100 with volume v/100: level 3 iff v >= 67, level 2 iff 34 <= v < 67, level 1 iff 1 <= v < 34, level 0 iff v == 0 |
| `VolumeIcon.VolumeControl.constructor` | script.js:151 | the page starts with volume 1 |
| `VolumeIcon.VolumeControl.OnInput` | script.js:182-201 | the input handler stores the slider position / 100 as the volume and shows the icon level of that volume |
| `FormButtons.After` | script.js:129-131 | after a submit only the submit button is disabled; after an image load or a clear (script.js:17-19, 146-148) only the submit button is enabled; either way the invariant `reset == read == !submit` holds |
| `FormButtons.RunEndsAtLastEvent` | script.js:17-148 | after any non-empty series of load, submit and clear events, the buttons are as the last event sets them, whatever they were before |
| `FormButtons.RunKeepsConsistent` | script.js:17-148 | every series of events keeps the invariant `reset == read == !submit`, and after one event it holds from any start |
| `FormButtons.ReadEnabledIffLastSubmitted` | script.js:17-148 | after at least one event the read-aloud button is enabled exactly when the last event was a submit |
| `FormButtons.Buttons.OnImageLoad` | script.js:17-19 | the load handler enables submit and disables reset and read-aloud, keeping the invariant |
| `FormButtons.Buttons.OnSubmit` | script.js:129-131 | the submit handler disables submit and enables reset and read-aloud, keeping the invariant |
| `FormButtons.Buttons.OnClear` | script.js:146-148 | the clear handler enables submit and disables reset and read-aloud, keeping the invariant |
| `ImageFile.LastIndexOf` | script.js:101 | the result is -1 or an index holding the character, and no later index holds it (so -1 exactly when the character is absent) |
| `ImageFile.FileName` | script.js:101 | the file name is a suffix of the URL with no `/` in it; when the URL has a `/`, the character just before the name is a `/`; when it has none, the name is the whole URL |
| `ImageFile.FileNameOfJoined` | script.js:100-103 | joining any prefix, a `/` and a name without `/` and taking the file name gives back the name |
| `Voices.Label` | script.js:83-87 | the label starts with `name (lang)`, ends with ` -- DEFAULT` exactly when the voice is the default, and is exactly as long as those parts together |
| `Voices.OptionFor` | script.js:82-90 | a voice's menu entry carries the voice's name and language as `data-name` and `data-lang`, and its text is the voice's label: it starts with the name and is marked exactly for the default voice |
| `Voices.OptionsFor` | script.js:80-93 | the entries for a voice list are one per voice, each the entry for the voice at the same position |
| `Voices.RemoveFirst` | script.js:94 | `remove(0)` drops the first entry and shifts the rest down by one; an empty menu stays empty |
| `Voices.VoiceMenu.OnVoicesChanged` | script.js:72-95 | the handler enables the menu and leaves the old entries followed by one entry per voice, minus the first entry; the length becomes old length + number of voices - 1 |
| `Voices.PlaceholderReplaced` | script.js:80-94 | when the menu holds one placeholder entry, the handler leaves exactly one entry per voice, in the browser's order |
| `Voices.RefiringDropsFirstVoice` | script.js:72-95 | when the handler fires again on the filled menu, the first voice's entry is removed and all entries are appended a second time |
| `Voices.LastMatch` | script.js:167-172 | the result is none exactly when no voice has the selected name; otherwise it is a voice with that name after which no voice in the list has the name |
| `Voices.ChoosingEntryPicksItsVoice` | script.js:164-172 | when voice names are distinct, choosing the menu entry made for a voice picks that voice |
| `Voices.ReadAloud` | script.js:154-179 | both utterances carry their caption and the page's volume, and both get the same voice: the last voice with the selected name, or none when no voice has that name |

## Left out

- Canvas drawing (clearing, filling, `drawImage`, caption text, fonts and alignment) is left out. These are side effects on the browser's 2D context and have no result to state.
- DOM lookups, `setAttribute`, `createElement`, `img.src` and `img.alt` are left out. They are platform calls; only the string and list logic around them is modelled.
- `URL.createObjectURL`, `speechSynthesis.getVoices` and `synth.speak` are left out because they are browser services. The URL and the voice list are inputs, and the utterances are returned instead of spoken.
- Event registration and the asynchronous order of `load`, `voiceschanged`, `change` and `input` are left out. Each handler is a synchronous method or function.
- The browser's native form reset (which clears the text fields when the reset button is pressed) is not part of `script.js` and is left out.
- The initial button flags and the initial voice-menu entries come from the page's markup, which is not part of this model. The two constructors take them as parameters, including whether the voice menu starts disabled.
- The selected menu entry's `data-name` is an input (`None` when the entry has no such attribute). A menu with no selected entry, where `selectedOptions[0]` is undefined and the handler throws, is left out.
- `ImageFit.GetDimensions`: IEEE-754 rounding, NaN and Infinity are left out. Dimensions are `real`, and only a zero image height is excluded, because the source divides by it.
- The slider position is taken as an integer, as a range input with its default step gives it. The levels in `VolumeIcon.SliderLevels` are proved for positions 0..100, the input's default range.
