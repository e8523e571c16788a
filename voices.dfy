/** Speech voices: the voice menu built when the browser reports its voices,
    and the voice the read button speaks the captions with. */
module Voices {

  datatype Option<T> = None | Some(value: T)

  /** A speech-synthesis voice as the browser reports it. */
  datatype Voice = Voice(name: string, lang: string, isDefault: bool)

  /** An entry of the voice menu: its visible text and its two data attributes. */
  datatype VoiceOption = VoiceOption(text: string, dataLang: string, dataName: string)

  /** A caption to be spoken: its text, its voice (None leaves the browser's
      default) and its volume. */
  datatype Utterance = Utterance(text: string, voice: Option<Voice>, volume: real)

  /** Appended to the label of the browser's default voice. */
  const DefaultMarker: string := " -- DEFAULT"

  /** `s` begins with `prefix`. */
  predicate StartsWith(s: string, prefix: string)
  {
    |prefix| <= |s| && s[..|prefix|] == prefix
  }

  /** `s` finishes with `suffix`. */
  predicate EndsWith(s: string, suffix: string)
  {
    |suffix| <= |s| && s[|s| - |suffix|..] == suffix
  }

  /** The menu text of a voice: its name and, in parentheses, its language,
      marked when it is the default voice. */
  function Label(v: Voice): (shown: string)
    ensures StartsWith(shown, v.name + " (" + v.lang + ")")
    ensures v.isDefault <==> EndsWith(shown, DefaultMarker)
    ensures |shown| == |v.name| + |v.lang| + 3 + (if v.isDefault then |DefaultMarker| else 0)
  {
    var base := v.name + " (" + v.lang + ")";
    assert base[|base| - 1] == ')';
    if v.isDefault then
      var shown := base + DefaultMarker;
      assert shown[..|base|] == base;
      assert shown[|shown| - |DefaultMarker|..] == DefaultMarker;
      shown
    else
      base
  }

  /** The menu entry created for one voice. */
  function OptionFor(v: Voice): (o: VoiceOption)
    ensures o.text == Label(v)
    ensures o.dataName == v.name && o.dataLang == v.lang
    ensures StartsWith(o.text, v.name) && (v.isDefault <==> EndsWith(o.text, DefaultMarker))
  {
    var o := VoiceOption(Label(v), v.lang, v.name);
    assert o.text[..|v.name|] == (v.name + " (" + v.lang + ")")[..|v.name|];
    o
  }

  /** The menu entries for a list of voices, one per voice, in order. */
  function OptionsFor(voices: seq<Voice>): (opts: seq<VoiceOption>)
    ensures |opts| == |voices|
    ensures forall i :: 0 <= i < |voices| ==> opts[i] == OptionFor(voices[i])
    decreases |voices|
  {
    if voices == [] then []
    else OptionsFor(voices[..|voices| - 1]) + [OptionFor(voices[|voices| - 1])]
  }

  /** Entries for one more voice are the old entries plus that voice's entry. */
  lemma OptionsForAppend(voices: seq<Voice>, v: Voice)
    ensures OptionsFor(voices + [v]) == OptionsFor(voices) + [OptionFor(v)]
  {
    assert (voices + [v])[..|voices|] == voices;
  }

  /** The menu after `remove(0)`, which does nothing on an empty menu. */
  function RemoveFirst(opts: seq<VoiceOption>): (r: seq<VoiceOption>)
    ensures opts != [] ==> |r| == |opts| - 1 && forall i :: 0 <= i < |r| ==> r[i] == opts[i + 1]
    ensures opts == [] ==> r == []
  {
    if opts == [] then opts else opts[1..]
  }

  /** The voice menu of the page. */
  class VoiceMenu {
    var options: seq<VoiceOption>
    var disabled: bool

    /** The menu as the page's markup gives it before the voices are known. */
    constructor (placeholder: seq<VoiceOption>, initiallyDisabled: bool)
      ensures options == placeholder && disabled == initiallyDisabled
    {
      options := placeholder;
      disabled := initiallyDisabled;
    }

    /** The `voiceschanged` handler: enables the menu, appends one entry per
        voice in the browser's order, then removes the first entry. */
    method OnVoicesChanged(voices: seq<Voice>)
      modifies this
      ensures !disabled
      ensures options == RemoveFirst(old(options) + OptionsFor(voices))
      ensures |old(options)| + |voices| > 0 ==> |options| == |old(options)| + |voices| - 1
    {
      disabled := false;
      var appended := options;
      var i := 0;
      while i < |voices|
        invariant 0 <= i <= |voices|
        invariant appended == old(options) + OptionsFor(voices[..i])
        invariant !disabled && options == old(options)
      {
        OptionsForAppend(voices[..i], voices[i]);
        assert voices[..i + 1] == voices[..i] + [voices[i]];
        appended := appended + [OptionFor(voices[i])];
        i := i + 1;
      }
      assert voices[..i] == voices;
      options := RemoveFirst(appended);
    }
  }

  /** With the single placeholder entry the page starts with, the first
      `voiceschanged` leaves exactly one entry per voice, in order. */
  lemma PlaceholderReplaced(placeholder: VoiceOption, voices: seq<Voice>)
    ensures RemoveFirst([placeholder] + OptionsFor(voices)) == OptionsFor(voices)
  {
  }

  /** If `voiceschanged` fires again, the voices are appended a second time
      and it is the first voice's entry, not a placeholder, that is removed. */
  lemma RefiringDropsFirstVoice(voices: seq<Voice>)
    requires voices != []
    ensures RemoveFirst(OptionsFor(voices) + OptionsFor(voices)) == OptionsFor(voices[1..]) + OptionsFor(voices)
  {
  }

  /** Whether a voice is the one the selected menu entry names; an entry
      without a `data-name` attribute (None) names no voice. */
  predicate Matches(v: Voice, selected: Option<string>)
  {
    selected == Some(v.name)
  }

  /** The last voice in list order that the selected entry names, or None
      when it names none. */
  function LastMatch(voices: seq<Voice>, selected: Option<string>): (r: Option<Voice>)
    ensures r == None <==> forall i :: 0 <= i < |voices| ==> !Matches(voices[i], selected)
    ensures r != None ==> exists k :: 0 <= k < |voices| && voices[k] == r.value && Matches(voices[k], selected)
                                       && forall j :: k < j < |voices| ==> !Matches(voices[j], selected)
    decreases |voices|
  {
    if voices == [] then None
    else
      var last := voices[|voices| - 1];
      if Matches(last, selected) then Some(last)
      else
        var r := LastMatch(voices[..|voices| - 1], selected);
        assert forall i :: 0 <= i < |voices| - 1 ==> voices[..|voices| - 1][i] == voices[i];
        r
  }

  /** With distinct voice names, choosing the menu entry made for a voice
      makes the read button speak with that very voice. */
  lemma ChoosingEntryPicksItsVoice(voices: seq<Voice>, k: nat)
    requires k < |voices|
    requires forall i, j :: 0 <= i < j < |voices| ==> voices[i].name != voices[j].name
    ensures LastMatch(voices, Some(OptionsFor(voices)[k].dataName)) == Some(voices[k])
  {
    var selected := Some(OptionsFor(voices)[k].dataName);
    assert Matches(voices[k], selected);
  }

  /** The read button's handler: two fresh utterances for the captions,
      each given the last voice the selected entry names (a fresh
      utterance has no voice and volume 1), then the page's volume. */
  method ReadAloud(topText: string, bottomText: string, voices: seq<Voice>, selected: Option<string>, volume: real)
    returns (top: Utterance, bottom: Utterance)
    ensures top.text == topText && bottom.text == bottomText
    ensures top.volume == volume && bottom.volume == volume
    ensures top.voice == bottom.voice
    ensures top.voice == None <==> forall i :: 0 <= i < |voices| ==> !Matches(voices[i], selected)
    ensures top.voice != None ==> exists k :: 0 <= k < |voices| && voices[k] == top.voice.value && Matches(voices[k], selected)
                                               && forall j :: k < j < |voices| ==> !Matches(voices[j], selected)
    ensures top.voice == LastMatch(voices, selected)
  {
    top := Utterance(topText, None, 1.0);
    bottom := Utterance(bottomText, None, 1.0);
    for i := 0 to |voices|
      invariant top == Utterance(topText, LastMatch(voices[..i], selected), 1.0)
      invariant bottom == Utterance(bottomText, LastMatch(voices[..i], selected), 1.0)
    {
      assert voices[..i + 1][..i] == voices[..i];
      if Matches(voices[i], selected) {
        top := top.(voice := Some(voices[i]));
        bottom := bottom.(voice := Some(voices[i]));
      }
    }
    assert voices[..|voices|] == voices;
    top := top.(volume := volume);
    bottom := bottom.(volume := volume);
  }
}
