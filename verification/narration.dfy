/**
 * Preparing the captions for speech: the text that is spoken, the options
 * offered in the voice selector, and the lookup from the selected option
 * back to a voice of the synthesiser's catalogue.
 *
 * The catalogue is whatever the platform reports; here it is just a sequence
 * of voice records, in the platform's order.
 */
module Narration {

  datatype Option<T> = None | Some(value: T)

  /** A synthesis voice as the platform describes it. */
  datatype Voice = Voice(name: string, lang: string, isDefault: bool)

  /** An entry of the voice selector: its visible text and its data attributes. */
  datatype VoiceOption = VoiceOption(text: string, lang: string, name: string)

  const DefaultMarker: string := " -- DEFAULT"

  predicate StartsWith(s: string, prefix: string)
  {
    |prefix| <= |s| && s[..|prefix|] == prefix
  }

  predicate EndsWith(s: string, suffix: string)
  {
    |suffix| <= |s| && s[|s| - |suffix|..] == suffix
  }

  /**
   * The text spoken for a caption pair: the top caption, one space, then the
   * bottom caption.
   */
  function UtteranceText(top: string, bottom: string): (t: string)
    ensures |t| == |top| + 1 + |bottom|
    ensures StartsWith(t, top) && t[|top|] == ' ' && t[|top| + 1..] == bottom
  {
    top + " " + bottom
  }

  /** Two caption pairs are spoken alike only when their top captions are equally long and all four agree. */
  lemma UtteranceTextInjective(top1: string, bottom1: string, top2: string, bottom2: string)
    requires |top1| == |top2|
    requires UtteranceText(top1, bottom1) == UtteranceText(top2, bottom2)
    ensures top1 == top2 && bottom1 == bottom2
  {
  }

  /**
   * The visible text of a voice's option: the name, the language in
   * parentheses, and a marker when the voice is the platform default.
   */
  function VoiceLabel(v: Voice): (s: string)
  {
    var base := v.name + " (" + v.lang + ")";
    if v.isDefault then base + DefaultMarker else base
  }

  /**
   * A label starts with the name and the language in parentheses, ends with
   * the default marker exactly when the voice is the default, and is no
   * longer than those parts.
   */
  lemma VoiceLabelShape(v: Voice)
    ensures StartsWith(VoiceLabel(v), v.name + " (" + v.lang + ")")
    ensures EndsWith(VoiceLabel(v), DefaultMarker) <==> v.isDefault
    ensures |VoiceLabel(v)| == |v.name| + |v.lang| + 3 + (if v.isDefault then |DefaultMarker| else 0)
  {
    var base := v.name + " (" + v.lang + ")";
    var text := VoiceLabel(v);
    assert text[..|base|] == base;
    if !v.isDefault {
      assert text[|text| - 1] == ')';
      assert DefaultMarker[|DefaultMarker| - 1] == 'T';
    } else {
      assert text[|text| - |DefaultMarker|..] == DefaultMarker;
    }
  }

  /** The selector entry for one voice, carrying its name and language as data. */
  function MakeOption(v: Voice): (o: VoiceOption)
    ensures o.text == VoiceLabel(v)
    ensures o.name == v.name && o.lang == v.lang
  {
    VoiceOption(VoiceLabel(v), v.lang, v.name)
  }

  /**
   * The entries appended to the selector for a catalogue, one per voice and
   * in catalogue order.
   */
  function BuildOptions(voices: seq<Voice>): (options: seq<VoiceOption>)
    ensures |options| == |voices|
    ensures forall i :: 0 <= i < |voices| ==> options[i] == MakeOption(voices[i])
    decreases |voices|
  {
    if |voices| == 0 then []
    else BuildOptions(voices[..|voices| - 1]) + [MakeOption(voices[|voices| - 1])]
  }

  /**
   * The selector's entries after a narration is prepared: its first entry is
   * removed (an empty selector is left as it is) and one entry per voice is
   * appended, so entries from earlier clicks stay behind.
   */
  function Repopulate(entries: seq<VoiceOption>, voices: seq<Voice>): (r: seq<VoiceOption>)
    ensures |r| == (if |entries| == 0 then 0 else |entries| - 1) + |voices|
    ensures |entries| > 0 ==> r[..|entries| - 1] == entries[1..]
    ensures r[|r| - |voices|..] == BuildOptions(voices)
    ensures |r| == 0 <==> |entries| <= 1 && |voices| == 0
  {
    var kept := if |entries| == 0 then [] else entries[1..];
    var r := kept + BuildOptions(voices);
    assert r[|kept|..] == BuildOptions(voices);
    r
  }

  /** After a refill, the entries at the end are those of the catalogue's voices, in order. */
  lemma RepopulateEntry(entries: seq<VoiceOption>, voices: seq<Voice>, i: int)
    requires 0 <= i < |voices|
    ensures var r := Repopulate(entries, voices);
            r[|r| - |voices| + i] == MakeOption(voices[i])
  {
    var r := Repopulate(entries, voices);
    assert BuildOptions(voices)[i] == MakeOption(voices[i]);
    assert r[|r| - |voices| + i] == r[|r| - |voices|..][i];
  }

  /** The selector after `k` narrations are prepared from the same catalogue. */
  function RepopulateTimes(entries: seq<VoiceOption>, voices: seq<Voice>, k: nat): (r: seq<VoiceOption>)
    decreases k
  {
    if k == 0 then entries else Repopulate(RepopulateTimes(entries, voices, k - 1), voices)
  }

  /**
   * The number of selector entries after `k` refills, counted without the
   * entries themselves: each refill removes one entry, if there is one, and
   * adds `count`.
   */
  function EntryCount(start: nat, count: nat, k: nat): (n: nat)
    decreases k
  {
    if k == 0 then start
    else
      var before := EntryCount(start, count, k - 1);
      (if before == 0 then 0 else before - 1) + count
  }

  /** Refilling `k` times leaves as many entries as `EntryCount` counts. */
  lemma {:induction false} RefillCount(entries: seq<VoiceOption>, voices: seq<Voice>, k: nat)
    ensures |RepopulateTimes(entries, voices, k)| == EntryCount(|entries|, |voices|, k)
    decreases k
  {
    if k > 0 {
      RefillCount(entries, voices, k - 1);
    }
  }

  /** The count in closed form, for a non-empty start and catalogue. */
  lemma {:induction false} EntryCountClosedForm(start: nat, count: nat, k: nat)
    requires start >= 1 && count >= 1
    ensures EntryCount(start, count, k) == start + k * (count - 1)
    decreases k
  {
    if k > 0 {
      EntryCountClosedForm(start, count, k - 1);
      GrowthStep(EntryCount(start, count, k - 1), start, k, count);
    }
  }

  /** One refill step of `EntryCountClosedForm`, kept apart from the recursion. */
  lemma GrowthStep(len: int, start: int, k: nat, count: nat)
    requires start >= 1 && count >= 1 && k >= 1
    requires len == start + (k - 1) * (count - 1)
    ensures len >= 1
    ensures len - 1 + count == start + k * (count - 1)
  {
    var m: nat, n: nat := k - 1, count - 1;
    assert m * n >= 0;
    assert k * n == m * n + n;
  }

  /**
   * With a non-empty selector and catalogue, each preparation removes one
   * entry and appends one per voice: the selector grows by one less than the
   * number of voices every time.
   */
  lemma SelectorGrows(entries: seq<VoiceOption>, voices: seq<Voice>, k: nat)
    requires |entries| >= 1 && |voices| >= 1
    ensures |RepopulateTimes(entries, voices, k)| == |entries| + k * (|voices| - 1)
  {
    RefillCount(entries, voices, k);
    EntryCountClosedForm(|entries|, |voices|, k);
  }

  /**
   * Voice `voices[i]` is the last one of the catalogue with the given name:
   * the one the lookup settles on.
   */
  predicate IsLastMatch(voices: seq<Voice>, name: string, i: int)
  {
    && 0 <= i < |voices|
    && voices[i].name == name
    && forall j :: i < j < |voices| ==> voices[j].name != name
  }

  /** Reference definition of the lookup: search from the end of the catalogue. */
  function LastMatch(voices: seq<Voice>, name: string): (found: Option<Voice>)
    decreases |voices|
  {
    if |voices| == 0 then None
    else if voices[|voices| - 1].name == name then Some(voices[|voices| - 1])
    else LastMatch(voices[..|voices| - 1], name)
  }

  /**
   * The reference lookup finds nothing exactly when no voice has the name,
   * and otherwise finds the last voice that has it.
   */
  lemma {:induction false} LastMatchCharacterized(voices: seq<Voice>, name: string)
    ensures LastMatch(voices, name).None? <==> forall i :: 0 <= i < |voices| ==> voices[i].name != name
    ensures LastMatch(voices, name).Some? ==>
              exists i :: IsLastMatch(voices, name, i) && LastMatch(voices, name).value == voices[i]
    decreases |voices|
  {
    if |voices| == 0 {
    } else {
      var n := |voices| - 1;
      if voices[n].name == name {
        assert IsLastMatch(voices, name, n);
      } else {
        var front := voices[..n];
        LastMatchCharacterized(front, name);
        assert forall i :: 0 <= i < n ==> front[i] == voices[i];
        if LastMatch(front, name).Some? {
          var i :| IsLastMatch(front, name, i) && LastMatch(front, name).value == front[i];
          assert IsLastMatch(voices, name, i);
        }
      }
    }
  }

  /**
   * The selector lookup: scan the whole catalogue and keep the last voice
   * whose name equals the selected name. When no voice has that name the
   * voice stays unset and the platform default speaks.
   */
  method ResolveVoice(voices: seq<Voice>, selectedName: string) returns (voice: Option<Voice>)
    ensures voice == LastMatch(voices, selectedName)
    ensures voice.None? <==> forall i :: 0 <= i < |voices| ==> voices[i].name != selectedName
    ensures voice.Some? ==> exists i :: IsLastMatch(voices, selectedName, i) && voice.value == voices[i]
  {
    voice := None;
    var i := 0;
    while i < |voices|
      invariant 0 <= i <= |voices|
      invariant voice == LastMatch(voices[..i], selectedName)
    {
      assert voices[..i + 1][..i] == voices[..i];
      if voices[i].name == selectedName {
        voice := Some(voices[i]);
      }
      i := i + 1;
    }
    assert voices[..i] == voices;
    LastMatchCharacterized(voices, selectedName);
  }

  /**
   * Selecting any entry built from the catalogue resolves to a voice with
   * that entry's name: the last such voice, which is the entry's own voice
   * when names are unique.
   */
  lemma SelectedOptionResolves(voices: seq<Voice>, k: int)
    requires 0 <= k < |voices|
    ensures var name := BuildOptions(voices)[k].name;
            && LastMatch(voices, name).Some?
            && LastMatch(voices, name).value.name == name
            && ((forall j :: 0 <= j < |voices| && j != k ==> voices[j].name != name) ==>
                  LastMatch(voices, name) == Some(voices[k]))
  {
    var name := voices[k].name;
    assert BuildOptions(voices)[k].name == name;
    LastMatchCharacterized(voices, name);
    var i :| IsLastMatch(voices, name, i) && LastMatch(voices, name).value == voices[i];
    assert voices[i].name == name;
  }
}
