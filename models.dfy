/** The model picker: the family icons shown on each model's button, the
    button's callback data, and reading the model name back from it. */
module Models {

  import opened Wrappers
  import opened Text

  const LlamaIcon: char := '\U{1F999}'
  const ClipIcon: char := '\U{1F4F7}'
  const UnknownFamilies := "\U{2728}"
  const CallbackPrefix := "model_"

  /** The icon of a model family, if it has one. */
  function IconOf(family: string): Option<char> {
    if family == "llama" then Some(LlamaIcon)
    else if family == "clip" then Some(ClipIcon)
    else None
  }

  /** The icons of `families` joined together, or `None` as soon as one family
      has no icon (the dictionary lookup that raises `KeyError`). */
  function JoinIcons(families: seq<string>): (r: Option<string>)
    ensures r.None? <==> exists i :: 0 <= i < |families| && IconOf(families[i]).None?
    ensures r.Some? ==> |r.value| == |families|
                        && forall i :: 0 <= i < |families| ==> IconOf(families[i]) == Some(r.value[i])
  {
    if families == [] then Some("")
    else
      match (JoinIcons(families[..|families| - 1]), IconOf(families[|families| - 1]))
      case (Some(s), Some(c)) => Some(s + [c])
      case _ => None
  }

  /** The icon text after a model's name: nothing when the model lists no
      families (or `null`), the family icons when all are known, and a single
      sparkle when any is not. */
  function FamilyIcons(families: Option<seq<string>>): (r: string)
    ensures families.None? || families.value == [] ==> r == ""
    ensures families.Some? && (exists i :: 0 <= i < |families.value| && IconOf(families.value[i]).None?)
            ==> r == UnknownFamilies
    ensures families.Some? && (forall i :: 0 <= i < |families.value| ==> IconOf(families.value[i]).Some?)
            ==> |r| == |families.value|
                && forall i :: 0 <= i < |r| ==> IconOf(families.value[i]) == Some(r[i])
  {
    if families.None? || families.value == [] then ""
    else match JoinIcons(families.value)
      case Some(icons) => icons
      case None => UnknownFamilies
  }

  /** The label of a model's button: the name, a space, then the icons. The
      icons hold no space, so the name is everything before the label's last space. */
  function ButtonText(name: string, families: Option<seq<string>>): (r: string)
    ensures |name| < |r| && r[..|name|] == name && r[|name|] == ' '
    ensures r[|name| + 1..] == FamilyIcons(families)
    ensures forall j :: |name| < j < |r| ==> r[j] != ' '
  {
    IconsHaveNoSpace(families);
    name + " " + FamilyIcons(families)
  }

  /** No icon text contains a space. */
  lemma IconsHaveNoSpace(families: Option<seq<string>>)
    ensures forall j :: 0 <= j < |FamilyIcons(families)| ==> FamilyIcons(families)[j] != ' '
  {
    var icons := FamilyIcons(families);
    if families.Some? && families.value != [] && JoinIcons(families.value).Some? {
      forall j | 0 <= j < |icons| ensures icons[j] != ' ' {
        assert IconOf(families.value[j]) == Some(icons[j]);
      }
    }
  }

  /** The callback data of a model's button. */
  function CallbackData(name: string): (r: string)
    ensures StartsWith(r, CallbackPrefix)
  {
    CallbackPrefix + name
  }

  /** `data.split("model_")[1]` for data that starts with the prefix: the text
      after the prefix, up to the next occurrence of the prefix. */
  function ParseCallbackAsWritten(data: string): (r: string)
    requires StartsWith(data, CallbackPrefix)
    ensures StartsWith(data[|CallbackPrefix|..], r)
    ensures !Contains(r, CallbackPrefix)
    ensures |r| == |data| - |CallbackPrefix| || OccursAt(data[|CallbackPrefix|..], CallbackPrefix, |r|)
  {
    var rest := data[|CallbackPrefix|..];
    match IndexOf(rest, CallbackPrefix)
    case None => rest
    case Some(j) =>
      FirstOccurrenceCut(rest, CallbackPrefix, j);
      rest[..j]
  }

  /** Cutting `s` at the first occurrence of `p` leaves no occurrence of `p`. */
  lemma FirstOccurrenceCut(s: string, p: string, j: nat)
    requires p != [] && j <= |s| && forall i :: 0 <= i < j ==> !OccursAt(s, p, i)
    ensures !Contains(s[..j], p)
  {
    forall i | 0 <= i <= j - |p| ensures !OccursAt(s[..j], p, i) {
      if OccursAt(s[..j], p, i) {
        assert s[..j][i..i + |p|] == s[i..i + |p|];
        assert OccursAt(s, p, i);
      }
    }
  }

  /** The text after the prefix: the model name the button was made for. */
  function ParseCallback(data: string): (name: string)
    requires StartsWith(data, CallbackPrefix)
    ensures CallbackData(name) == data
  {
    data[|CallbackPrefix|..]
  }

  /** Every model name survives the round trip through its button. */
  lemma CallbackRoundTrip(name: string)
    ensures ParseCallback(CallbackData(name)) == name
  {
    assert CallbackData(name)[|CallbackPrefix|..] == name;
  }

  /** The parse as written gives back the name exactly when the name does not
      itself contain the prefix. */
  lemma CallbackAsWrittenRoundTrip(name: string)
    ensures ParseCallbackAsWritten(CallbackData(name)) == name <==> !Contains(name, CallbackPrefix)
  {
    assert CallbackData(name)[|CallbackPrefix|..] == name;
    match IndexOf(name, CallbackPrefix)
    case None =>
    case Some(j) =>
      assert |name[..j]| < |name|;
  }

  /** A model called "my_model_v2" is selected as "my_". */
  lemma CallbackAsWrittenTruncates()
    ensures ParseCallbackAsWritten(CallbackData("my_model_v2")) == "my_"
  {
    var name := "my_model_v2";
    assert CallbackData(name)[|CallbackPrefix|..] == name;
    assert OccursAt(name, CallbackPrefix, 3) by {
      assert name[3..9] == CallbackPrefix;
    }
    assert name[0..6][1] != CallbackPrefix[1];
    assert name[1..7][0] != CallbackPrefix[0];
    assert name[2..8][0] != CallbackPrefix[0];
    assert IndexOf(name, CallbackPrefix) == Some(3);
    assert name[..3] == "my_";
  }
}
